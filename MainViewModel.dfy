/**
 * The main screen's view model: the station list, its text search with a
 * one-entry cache, the refresh from the price service, the per-fuel-type
 * average prices and the cheap/typical/expensive colouring.
 */
module ViewModel {
  import opened Wrappers
  import opened Text
  import opened Sequences
  import opened GasStations

  /** `.primary`, `.green` or `.red`. */
  datatype PriceColor = Primary | Green | Red

  /** What the price service hands back: the decoded station list, or an error description. */
  datatype FetchOutcome = Fetched(stations: seq<GasStation>) | FetchFailed(description: string)

  /** `(isOpen: Bool, message: String)`. */
  datatype StationStatus = StationStatus(isOpen: bool, message: string)

  /** `CLLocation.distance(from:)` in metres, left abstract. */
  type Distance = (Coordinate, Coordinate) -> real

  // ---------------------------------------------------------------- search

  /** The lower-cased "address municipality location" a search term is looked up in. */
  function SearchableText(s: GasStation): (r: string)
    ensures r == Lower(s.address) + " " + Lower(s.municipality) + " " + Lower(s.location)
  {
    LowerJoin(s.address + " " + s.municipality, s.location);
    LowerJoin(s.address, s.municipality);
    Lower(s.address + " " + s.municipality + " " + s.location)
  }

  /**
   * The lower-cased, space-separated terms of the search text: joined they
   * give the lower-cased text without its spaces; there are none exactly
   * when the text is blank; a single word is its own only term.
   */
  function SearchTerms(searchText: string): (terms: seq<string>)
    ensures forall k :: 0 <= k < |terms| ==> terms[k] != [] && ' ' !in terms[k]
    ensures Concat(terms) == RemoveChar(Lower(searchText), ' ')
    ensures terms == [] <==> AllSpaces(searchText)
    ensures searchText != [] && ' ' !in searchText ==> terms == [Lower(searchText)]
  {
    var lowered := Lower(searchText);
    SplitLosesOnlySpaces(lowered);
    LowerKeepsSpaces(searchText);
    SplitEmptyIffBlank(lowered);
    if searchText != [] && ' ' !in searchText then
      assert ' ' !in lowered;
      SplitSingleWord(lowered);
      Split(lowered)
    else
      Split(lowered)
  }

  /** The terms of two texts joined by a space are the terms of the first followed by those of the second. */
  lemma SearchTermsAroundSpace(a: string, b: string)
    ensures SearchTerms(a + " " + b) == SearchTerms(a) + SearchTerms(b)
  {
    LowerJoin(a, b);
    SplitAroundSpace(Lower(a), Lower(b));
  }

  /** Every term occurs in the station's searchable text (`allSatisfy`). */
  predicate MatchesAll(s: GasStation, terms: seq<string>)
    ensures MatchesAll(s, terms) ==> forall k :: 0 <= k < |terms| ==> |terms[k]| <= |SearchableText(s)|
  {
    forall k :: 0 <= k < |terms| ==> Contains(SearchableText(s), terms[k])
  }

  /** Matching all of two lists of terms is matching each list. */
  lemma MatchesAllAppend(s: GasStation, a: seq<string>, b: seq<string>)
    ensures MatchesAll(s, a + b) <==> MatchesAll(s, a) && MatchesAll(s, b)
  {
    if MatchesAll(s, a) && MatchesAll(s, b) {
      forall k | 0 <= k < |a + b| ensures Contains(SearchableText(s), (a + b)[k]) {
        if k >= |a| {
          assert (a + b)[k] == b[k - |a|];
        }
      }
    }
    if MatchesAll(s, a + b) {
      forall k | 0 <= k < |a| ensures Contains(SearchableText(s), a[k]) {
        assert (a + b)[k] == a[k];
      }
      forall k | 0 <= k < |b| ensures Contains(SearchableText(s), b[k]) {
        assert (a + b)[|a| + k] == b[k];
      }
    }
  }

  /**
   * The test a station passes to stay in the search result. Naming the
   * closure makes it one and the same function value in every member that
   * filters by it.
   */
  function TermTest(terms: seq<string>): GasStation -> bool {
    (s: GasStation) => MatchesAll(s, terms)
  }

  /** What `filteredStations` computes on a cache miss. */
  function SearchResult(stations: seq<GasStation>, searchText: string): (r: seq<GasStation>)
    ensures searchText == "" ==> r == stations
    ensures searchText != "" ==> forall s :: s in r <==> s in stations && MatchesAll(s, SearchTerms(searchText))
    ensures searchText != "" ==> forall s ::
      multiset(r)[s] == if MatchesAll(s, SearchTerms(searchText)) then multiset(stations)[s] else 0
    ensures IsSubsequence(r, stations)
  {
    if searchText == "" then
      SubsequenceOfItself(stations);
      stations
    else
      Filter(stations, TermTest(SearchTerms(searchText)))
  }

  /** With or without text, the result is the filter by the text's terms. */
  lemma SearchResultFilters(stations: seq<GasStation>, searchText: string)
    ensures SearchResult(stations, searchText) == Filter(stations, TermTest(SearchTerms(searchText)))
  {
    if searchText == "" {
      assert SearchTerms(searchText) == [];
      FilterKeepsAll(stations, TermTest([]));
    }
  }

  /**
   * Typing another word after a space narrows the list: searching `a b` is
   * searching `b` within the result of searching `a`.
   */
  lemma SearchNarrows(stations: seq<GasStation>, a: string, b: string)
    ensures SearchResult(stations, a + " " + b) == SearchResult(SearchResult(stations, a), b)
  {
    var ta, tb := SearchTerms(a), SearchTerms(b);
    SearchTermsAroundSpace(a, b);
    forall s: GasStation ensures TermTest(ta + tb)(s) == (TermTest(ta)(s) && TermTest(tb)(s)) {
      MatchesAllAppend(s, ta, tb);
    }
    FilterConjunction(stations, TermTest(ta), TermTest(tb), TermTest(ta + tb));
    SearchResultFilters(stations, a + " " + b);
    SearchResultFilters(stations, a);
    SearchResultFilters(SearchResult(stations, a), b);
  }

  /** A search made of spaces only has no terms and keeps every station, in order. */
  lemma BlankSearchKeepsAll(stations: seq<GasStation>, searchText: string)
    requires forall i :: 0 <= i < |searchText| ==> searchText[i] == ' '
    ensures SearchResult(stations, searchText) == stations
  {
    if searchText != "" {
      var lowered := Lower(searchText);
      LowerKeepsSpaces(searchText);
      SplitEmptyIffBlank(lowered);
      var terms := SearchTerms(searchText);
      assert terms == [];
      FilterKeepsAll(stations, TermTest(terms));
    }
  }

  /** Searching the result of a search again with the same text reproduces it. */
  lemma SearchIdempotent(stations: seq<GasStation>, searchText: string)
    ensures SearchResult(SearchResult(stations, searchText), searchText) == SearchResult(stations, searchText)
  {
    if searchText != "" {
      var terms := SearchTerms(searchText);
      FilterTwice(stations, TermTest(terms), TermTest(terms));
    }
  }

  /** The search ignores the case of ASCII letters in the query. */
  lemma SearchIgnoresQueryCase(stations: seq<GasStation>, searchText: string)
    ensures SearchResult(stations, Lower(searchText)) == SearchResult(stations, searchText)
  {
    LowerIdempotent(searchText);
    LowerKeepsSpaces(searchText);
  }

  // ------------------------------------------------------- average prices

  /** The numeric value `calculateAveragePrices` takes from a formatted price, if any. */
  function PriceValue(price: string, parse: Parser): (r: Option<real>)
    ensures price == "N/A" ==> r.None?
  {
    if price == "N/A" then None else parse(RemoveChar(price, '€'))
  }

  /** For a raw price without a euro sign, that value is the parse of the decimal-point raw price. */
  lemma PriceValueOfRawPrice(s: GasStation, f: FuelType, parse: Parser)
    requires PriceField(s, f).Some? ==> '€' !in PriceField(s, f).value
    ensures PriceValue(GetPrice(s, f), parse) ==
      match PriceField(s, f)
      case None => None
      case Some(raw) => if raw == [] then None else parse(DecimalPoint(raw))
  {
    if PriceField(s, f).Some? && PriceField(s, f).value != [] {
      FormatPriceRoundTrip(PriceField(s, f).value);
    }
  }

  /** The station offers a usable price of `f`. */
  predicate Contributes(s: GasStation, f: FuelType, parse: Parser) {
    PriceValue(GetPrice(s, f), parse).Some?
  }

  /**
   * The usable price of `f` a station offers, if any. This and
   * `ContributesTest` name the closures passed to `CompactMap` and `Filter`,
   * so that they are one and the same function value in every member.
   */
  function UsablePrice(f: FuelType, parse: Parser): GasStation -> Option<real> {
    (s: GasStation) => PriceValue(GetPrice(s, f), parse)
  }

  /** The test `Contributes` as a function value. */
  function ContributesTest(f: FuelType, parse: Parser): GasStation -> bool {
    (s: GasStation) => Contributes(s, f, parse)
  }

  /** The stations that contribute a price of `f`, in list order. */
  function Contributors(stations: seq<GasStation>, f: FuelType, parse: Parser): seq<GasStation> {
    Filter(stations, ContributesTest(f, parse))
  }

  /** The `compactMap` of `calculateAveragePrices`: the usable prices of `f`, in list order. */
  function ContributingPrices(stations: seq<GasStation>, f: FuelType, parse: Parser): (prices: seq<real>)
    ensures |prices| <= |stations|
    ensures |prices| == 0 <==> forall k :: 0 <= k < |stations| ==> !Contributes(stations[k], f, parse)
  {
    CompactMap(stations, UsablePrice(f, parse))
  }

  /** The collected prices are, one for one and in order, the usable prices of the contributing stations. */
  lemma ContributingPricesOfContributors(stations: seq<GasStation>, f: FuelType, parse: Parser)
    ensures |ContributingPrices(stations, f, parse)| == |Contributors(stations, f, parse)|
    ensures forall k :: 0 <= k < |ContributingPrices(stations, f, parse)| ==>
      Some(ContributingPrices(stations, f, parse)[k]) == PriceValue(GetPrice(Contributors(stations, f, parse)[k], f), parse)
  {
    CompactMapOfFilter(stations, UsablePrice(f, parse), ContributesTest(f, parse));
  }

  /** A price is collected exactly when some station offers it as its usable price of `f`. */
  lemma ContributingPriceMembers(stations: seq<GasStation>, f: FuelType, parse: Parser, x: real)
    ensures x in ContributingPrices(stations, f, parse) <==>
      exists k :: 0 <= k < |stations| && PriceValue(GetPrice(stations[k], f), parse) == Some(x)
  {
    CompactMapMembers(stations, UsablePrice(f, parse), x);
  }

  function Sum(xs: seq<real>): real {
    if xs == [] then 0.0 else xs[0] + Sum(xs[1..])
  }

  /** `prices.reduce(0, +) / Double(prices.count)`. */
  function Mean(xs: seq<real>): (r: real)
    requires |xs| > 0
    ensures r * (|xs| as real) == Sum(xs)
  {
    Sum(xs) / (|xs| as real)
  }

  lemma {:induction false} SumBounds(xs: seq<real>, lo: real, hi: real)
    requires forall k :: 0 <= k < |xs| ==> lo <= xs[k] <= hi
    ensures lo * (|xs| as real) <= Sum(xs) <= hi * (|xs| as real)
  {
    if xs != [] {
      SumBounds(xs[1..], lo, hi);
    }
  }

  /** The average of some prices lies between their lowest and their highest. */
  lemma MeanBetween(xs: seq<real>, lo: real, hi: real)
    requires |xs| > 0
    requires forall k :: 0 <= k < |xs| ==> lo <= xs[k] <= hi
    ensures lo <= Mean(xs) <= hi
  {
    SumBounds(xs, lo, hi);
    var n := |xs| as real;
    assert lo * n <= Sum(xs) <= hi * n;
    assert Sum(xs) / n >= lo by {
      assert (Sum(xs) / n) * n == Sum(xs);
    }
    assert Sum(xs) / n <= hi by {
      assert (Sum(xs) / n) * n == Sum(xs);
    }
  }

  /** Prices 1.40, 1.50 and 1.60 average to 1.50. */
  lemma MeanOfThreePrices()
    ensures Mean([1.40, 1.50, 1.60]) == 1.50
  {
    var xs := [1.40, 1.50, 1.60];
    assert xs[1..][1..][1..] == [];
    assert Sum(xs) == 4.50;
  }

  /** After the update, the entry of `f` is the mean of its prices, or left as it was when it has none. */
  ghost predicate AverageUpdated(before: map<FuelType, real>, after: map<FuelType, real>,
                                 stations: seq<GasStation>, parse: Parser, f: FuelType)
  {
    EntryUpdated(before, after, ContributingPrices(stations, f, parse), f)
  }

  /** The entry of `f` is the mean of `prices`, or as it was when there are none. */
  ghost predicate EntryUpdated(before: map<FuelType, real>, after: map<FuelType, real>, prices: seq<real>, f: FuelType) {
    if |prices| > 0 then f in after && after[f] == Mean(prices) else SameEntry(after, before, f)
  }

  /** One turn of the loop of `calculateAveragePrices`: store the mean of `f`, if it has prices. */
  function UpdateEntry(m: map<FuelType, real>, stations: seq<GasStation>, parse: Parser, f: FuelType): map<FuelType, real> {
    var prices := ContributingPrices(stations, f, parse);
    if |prices| > 0 then m[f := Mean(prices)] else m
  }

  /** The dictionary after the loop has visited the fuel types `fs`, in order. */
  function UpdateEntries(m: map<FuelType, real>, stations: seq<GasStation>, parse: Parser, fs: seq<FuelType>): map<FuelType, real>
  {
    if fs == [] then m
    else UpdateEntry(UpdateEntries(m, stations, parse, fs[..|fs| - 1]), stations, parse, fs[|fs| - 1])
  }

  /** The dictionary `calculateAveragePrices` leaves behind. */
  function UpdatedAverages(before: map<FuelType, real>, stations: seq<GasStation>, parse: Parser): map<FuelType, real> {
    UpdateEntries(before, stations, parse, AllFuelTypes)
  }

  /** `m` and `n` agree on the entry of `f`, including its absence. */
  ghost predicate SameEntry(m: map<FuelType, real>, n: map<FuelType, real>, f: FuelType) {
    (f in m <==> f in n) && (f in m ==> m[f] == n[f])
  }

  /** One turn touches only the entry of the fuel type it visits. */
  lemma UpdateEntryEffect(before: map<FuelType, real>, m: map<FuelType, real>, stations: seq<GasStation>, parse: Parser,
                          g: FuelType, f: FuelType)
    ensures f != g ==> SameEntry(UpdateEntry(m, stations, parse, g), m, f)
    ensures f == g && (SameEntry(m, before, f) || AverageUpdated(before, m, stations, parse, f)) ==>
      AverageUpdated(before, UpdateEntry(m, stations, parse, g), stations, parse, f)
  {
  }

  /** Visiting `fs` updates the entries of `fs` and leaves every other entry as it was. */
  lemma {:induction false} UpdateEntriesEffect(before: map<FuelType, real>, stations: seq<GasStation>, parse: Parser,
                                               fs: seq<FuelType>, f: FuelType)
    ensures f in fs ==> AverageUpdated(before, UpdateEntries(before, stations, parse, fs), stations, parse, f)
    ensures f !in fs ==> SameEntry(UpdateEntries(before, stations, parse, fs), before, f)
  {
    if fs != [] {
      var init := fs[..|fs| - 1];
      var g := fs[|fs| - 1];
      var m := UpdateEntries(before, stations, parse, init);
      assert UpdateEntries(before, stations, parse, fs) == UpdateEntry(m, stations, parse, g);
      UpdateEntriesEffect(before, stations, parse, init, f);
      UpdateEntryEffect(before, m, stations, parse, g, f);
      InFrontOrLast(fs, f);
    }
  }

  /**
   * `calculateAveragePrices` sets the entry of every fuel type with usable
   * prices to their mean and leaves the entry of every other fuel type alone.
   */
  lemma UpdatedAveragesEffect(before: map<FuelType, real>, stations: seq<GasStation>, parse: Parser, f: FuelType)
    ensures AverageUpdated(before, UpdatedAverages(before, stations, parse), stations, parse, f)
  {
    AllFuelTypesOnce();
    UpdateEntriesEffect(before, stations, parse, AllFuelTypes, f);
  }

  /**
   * When some station has a usable price of `f` and every usable price lies
   * in `[lo, hi]`, the stored average of `f` lies there too.
   */
  lemma StoredAverageBetween(before: map<FuelType, real>, stations: seq<GasStation>, parse: Parser, f: FuelType,
                             lo: real, hi: real)
    requires exists k :: 0 <= k < |stations| && Contributes(stations[k], f, parse)
    requires forall k :: 0 <= k < |stations| && Contributes(stations[k], f, parse) ==>
      lo <= PriceValue(GetPrice(stations[k], f), parse).value <= hi
    ensures f in UpdatedAverages(before, stations, parse)
    ensures lo <= UpdatedAverages(before, stations, parse)[f] <= hi
  {
    var prices := ContributingPrices(stations, f, parse);
    var cs := Contributors(stations, f, parse);
    ContributingPricesOfContributors(stations, f, parse);
    UpdatedAveragesEffect(before, stations, parse, f);
    forall i | 0 <= i < |prices| ensures lo <= prices[i] <= hi {
      assert cs[i] in cs;
      var k :| 0 <= k < |stations| && stations[k] == cs[i];
    }
    MeanBetween(prices, lo, hi);
  }

  /** A station selling diesel A only, at the decimal-comma price `price`. */
  function DieselAStation(id: nat, price: string): GasStation {
    GasStation(id, "", "", "", "", "", "", "", "", None, None, None, None, None, Some(price), None, None, None, None, None)
  }

  /** The usable diesel A price of such a station is the parse of its price with a decimal point. */
  lemma DieselAStationPrice(id: nat, raw: string, decimal: string, parse: Parser)
    requires raw != [] && '€' !in raw
    requires DecimalPoint(raw) == decimal
    ensures PriceValue(GetPrice(DieselAStation(id, raw), DieselA), parse) == parse(decimal)
  {
    PriceValueOfRawPrice(DieselAStation(id, raw), DieselA, parse);
  }

  /** The three example stations used below. */
  const ExampleStations: seq<GasStation> := [DieselAStation(1, "1,40"), DieselAStation(2, "1,50"), DieselAStation(3, "1,60")]

  /** Each example station contributes its own diesel A price. */
  lemma ExampleUsablePrices(parse: Parser)
    requires parse("1.40") == Some(1.40) && parse("1.50") == Some(1.50) && parse("1.60") == Some(1.60)
    ensures PriceValue(GetPrice(ExampleStations[0], DieselA), parse) == Some(1.40)
    ensures PriceValue(GetPrice(ExampleStations[1], DieselA), parse) == Some(1.50)
    ensures PriceValue(GetPrice(ExampleStations[2], DieselA), parse) == Some(1.60)
  {
    assert DecimalPoint("1,40") == "1.40";
    DieselAStationPrice(1, "1,40", "1.40", parse);
    assert DecimalPoint("1,50") == "1.50";
    DieselAStationPrice(2, "1,50", "1.50", parse);
    assert DecimalPoint("1,60") == "1.60";
    DieselAStationPrice(3, "1,60", "1.60", parse);
  }

  /** Their diesel A prices are collected in list order. */
  lemma ExampleStationPrices(parse: Parser)
    requires parse("1.40") == Some(1.40) && parse("1.50") == Some(1.50) && parse("1.60") == Some(1.60)
    ensures ContributingPrices(ExampleStations, DieselA, parse) == [1.40, 1.50, 1.60]
  {
    ExampleUsablePrices(parse);
    var values := [1.40, 1.50, 1.60];
    assert UsablePrice(DieselA, parse)(ExampleStations[0]) == Some(values[0]);
    assert UsablePrice(DieselA, parse)(ExampleStations[1]) == Some(values[1]);
    assert UsablePrice(DieselA, parse)(ExampleStations[2]) == Some(values[2]);
    CompactMapTotal(ExampleStations, UsablePrice(DieselA, parse), values);
  }

  /** Diesel A prices "1,40", "1,50" and "1,60" at three stations store a diesel A average of 1.50. */
  lemma AverageOfThreeStations(before: map<FuelType, real>, parse: Parser)
    requires parse("1.40") == Some(1.40) && parse("1.50") == Some(1.50) && parse("1.60") == Some(1.60)
    ensures DieselA in UpdatedAverages(before, ExampleStations, parse)
    ensures UpdatedAverages(before, ExampleStations, parse)[DieselA] == 1.50
  {
    ExampleStationPrices(parse);
    MeanOfThreePrices();
    UpdatedAveragesEffect(before, ExampleStations, parse, DieselA);
  }

  // ------------------------------------------------------ classification

  const ThresholdRatio: real := 0.02

  /** The colour of a price against an average: cheap at 2 % below or more, expensive at 2 % above or more. */
  function Classify(price: real, average: real): (c: PriceColor)
    ensures c == Green <==> price - average <= -(average * ThresholdRatio)
    ensures c == Red <==> -(average * ThresholdRatio) < price - average && price - average >= average * ThresholdRatio
    ensures c == Primary <==> -(average * ThresholdRatio) < price - average < average * ThresholdRatio
  {
    var difference := price - average;
    var threshold := average * ThresholdRatio;
    if difference <= -threshold then Green
    else if difference >= threshold then Red
    else Primary
  }

  /** With a positive average the two strict classes are the two closed tails. */
  lemma ClassifyPositiveAverage(price: real, average: real)
    requires average > 0.0
    ensures Classify(price, average) == Green <==> price <= average * 0.98
    ensures Classify(price, average) == Red <==> price >= average * 1.02
  {
  }

  /** 1.47 against 1.50 is on the boundary and counts as cheap; 1.50 against itself is typical. */
  lemma ClassifyExamples()
    ensures Classify(1.47, 1.50) == Green
    ensures Classify(1.50, 1.50) == Primary
    ensures Classify(1.53, 1.50) == Red
  {
  }

  /** `getStationStatus`: always open; the message names a 24-hour schedule or repeats the schedule. */
  function GetStationStatus(schedule: string): (r: StationStatus)
    ensures r.isOpen
    ensures Contains(schedule, "24H") ==> r.message == "Abierto 24h"
    ensures !Contains(schedule, "24H") ==> r.message == schedule
  {
    if Contains(schedule, "24H") then StationStatus(true, "Abierto 24h") else StationStatus(true, schedule)
  }

  // ---------------------------------------------------------- ordering

  /** The comparator of `fetchStations`: nearer first, and `false` when either station has no coordinate. */
  predicate CloserToUser(user: Coordinate, a: GasStation, b: GasStation, parse: Parser, dist: Distance)
    ensures CloserToUser(user, a, b, parse, dist) ==> Coordinates(a, parse).Some? && Coordinates(b, parse).Some?
  {
    match (Coordinates(a, parse), Coordinates(b, parse))
    case (Some(ca), Some(cb)) => dist(user, ca) < dist(user, cb)
    case _ => false
  }

  /** The comparator is a strict order: irreflexive, so never "closer than itself", and transitive. */
  lemma CloserToUserStrict(user: Coordinate, a: GasStation, b: GasStation, c: GasStation, parse: Parser, dist: Distance)
    ensures !CloserToUser(user, a, a, parse, dist)
    ensures CloserToUser(user, a, b, parse, dist) && CloserToUser(user, b, c, parse, dist) ==> CloserToUser(user, a, c, parse, dist)
  {
  }

  /** The station list after `sorted(by:)` with that comparator. */
  function SortByDistance(stations: seq<GasStation>, user: Coordinate, parse: Parser, dist: Distance): (r: seq<GasStation>)
    ensures multiset(r) == multiset(stations)
  {
    SortBy(stations, (a: GasStation, b: GasStation) => CloserToUser(user, a, b, parse, dist))
  }

  // ------------------------------------------------------------ state

  class MainViewModel {
    var stations: seq<GasStation>
    var searchText: string
    var isLoading: bool
    var error: Option<string>
    var selectedFuelType: FuelType
    var averagePrices: map<FuelType, real>

    // the search cache
    var lastSearchText: string
    var lastFilteredStations: seq<GasStation>

    /** The cached list is the search over the current stations for the cached text. */
    ghost predicate CacheCoherent()
      reads this
    {
      lastFilteredStations == SearchResult(stations, lastSearchText)
    }

    constructor ()
      ensures stations == [] && searchText == "" && !isLoading && error == None
      ensures selectedFuelType == DieselA && averagePrices == map[]
      ensures lastSearchText == "" && lastFilteredStations == []
      ensures CacheCoherent()
    {
      stations := [];
      searchText := "";
      isLoading := false;
      error := None;
      selectedFuelType := DieselA;
      averagePrices := map[];
      lastSearchText := "";
      lastFilteredStations := [];
    }

    /**
     * `filteredStations`: the cached list while the search text is the one
     * last seen, otherwise a fresh search that is then cached.
     */
    method FilteredStations() returns (result: seq<GasStation>)
      modifies this`lastSearchText, this`lastFilteredStations
      ensures old(searchText) == old(lastSearchText) ==> result == old(lastFilteredStations)
      ensures old(searchText) != old(lastSearchText) ==> result == SearchResult(stations, searchText)
      ensures lastSearchText == searchText && lastFilteredStations == result
      ensures old(CacheCoherent()) ==> result == SearchResult(stations, searchText) && CacheCoherent()
      ensures old(searchText) != old(lastSearchText) ==> CacheCoherent()
    {
      if searchText == lastSearchText {
        return lastFilteredStations;
      }
      lastSearchText := searchText;
      if searchText == "" {
        lastFilteredStations := stations;
        return stations;
      }
      var terms := SearchTerms(searchText);
      lastFilteredStations := Filter(stations, TermTest(terms));
      return lastFilteredStations;
    }

    /** `calculateAveragePrices(for:)`. */
    method CalculateAveragePrices(all: seq<GasStation>, parse: Parser)
      modifies this`averagePrices
      ensures averagePrices == UpdatedAverages(old(averagePrices), all, parse)
    {
      for i := 0 to |AllFuelTypes|
        invariant averagePrices == UpdateEntries(old(averagePrices), all, parse, AllFuelTypes[..i])
      {
        var fuelType := AllFuelTypes[i];
        ghost var visited := AllFuelTypes[..i + 1];
        assert visited[..i] == AllFuelTypes[..i] && visited[i] == fuelType;
        ghost var expected := UpdateEntry(averagePrices, all, parse, fuelType);
        assert UpdateEntries(old(averagePrices), all, parse, visited) == expected;
        var prices := ContributingPrices(all, fuelType, parse);
        if |prices| > 0 {
          averagePrices := averagePrices[fuelType := Mean(prices)];
        }
        assert averagePrices == expected;
      }
      assert AllFuelTypes[..|AllFuelTypes|] == AllFuelTypes;
    }

    /** The synchronous part of `fetchStations` before the service is awaited. */
    method BeginFetch()
      modifies this`isLoading, this`error
      ensures isLoading && error == None
    {
      isLoading := true;
      error := None;
    }

    /** The part of `fetchStations` after the service has answered with `outcome`. */
    method FinishFetch(outcome: FetchOutcome, userLocation: Option<Coordinate>, parse: Parser, dist: Distance)
      modifies this`stations, this`averagePrices, this`error, this`isLoading
      ensures !isLoading
      ensures outcome.FetchFailed? ==>
        stations == old(stations) && averagePrices == old(averagePrices) && error == Some(outcome.description)
      ensures outcome.Fetched? ==>
        error == old(error) && averagePrices == UpdatedAverages(old(averagePrices), outcome.stations, parse)
      ensures outcome.Fetched? && userLocation.None? ==> stations == outcome.stations
      ensures outcome.Fetched? && userLocation.Some? ==>
        stations == SortByDistance(outcome.stations, userLocation.value, parse, dist)
      ensures outcome.Fetched? ==> multiset(stations) == multiset(outcome.stations)
    {
      match outcome {
        case Fetched(all) =>
          CalculateAveragePrices(all, parse);
          if userLocation.Some? {
            stations := SortByDistance(all, userLocation.value, parse, dist);
          } else {
            stations := all;
          }
        case FetchFailed(description) =>
          error := Some(description);
      }
      isLoading := false;
    }

    /** `fetchStations()`, with the service's answer and the device location as inputs. */
    method FetchStations(outcome: FetchOutcome, userLocation: Option<Coordinate>, parse: Parser, dist: Distance)
      modifies this`stations, this`averagePrices, this`error, this`isLoading
      ensures !isLoading
      ensures error == if outcome.FetchFailed? then Some(outcome.description) else None
      ensures outcome.FetchFailed? ==> stations == old(stations) && averagePrices == old(averagePrices)
      ensures outcome.Fetched? ==> averagePrices == UpdatedAverages(old(averagePrices), outcome.stations, parse)
      ensures outcome.Fetched? && userLocation.None? ==> stations == outcome.stations
      ensures outcome.Fetched? ==> multiset(stations) == multiset(outcome.stations)
    {
      BeginFetch();
      FinishFetch(outcome, userLocation, parse, dist);
    }

    /** `getPriceColor(price:for:)`: primary without an average or a parseable price, else the classification. */
    function GetPriceColor(price: string, f: FuelType, parse: Parser): (c: PriceColor)
      reads this
      ensures f !in averagePrices || parse(RemoveChar(price, '€')).None? ==> c == Primary
      ensures f in averagePrices && parse(RemoveChar(price, '€')).Some? ==>
        c == Classify(parse(RemoveChar(price, '€')).value, averagePrices[f])
    {
      if f in averagePrices then
        match parse(RemoveChar(price, '€'))
        case Some(value) => Classify(value, averagePrices[f])
        case None => Primary
      else Primary
    }

    /** The colour of a station's own formatted price is the classification of its decimal-point raw price. */
    lemma PriceColorOfStation(s: GasStation, f: FuelType, parse: Parser)
      requires PriceField(s, f).Some? && PriceField(s, f).value != [] && '€' !in PriceField(s, f).value
      ensures GetPriceColor(GetPrice(s, f), f, parse) ==
        if f in averagePrices && parse(DecimalPoint(PriceField(s, f).value)).Some?
        then Classify(parse(DecimalPoint(PriceField(s, f).value)).value, averagePrices[f])
        else Primary
    {
      FormatPriceRoundTrip(PriceField(s, f).value);
    }
  }

  // ------------------------------------------- the cache keyed on text only

  /**
   * The search cache compares only the search text. Both cache fields start
   * as the empty text and the empty list, so after a successful first fetch,
   * with the search field untouched, the list on screen is still empty while
   * the model holds the fetched station.
   */
  method StaleListAfterFetch(s: GasStation, parse: Parser, dist: Distance) returns (shown: seq<GasStation>, held: seq<GasStation>)
    ensures held == [s]
    ensures shown == []
  {
    var model := new MainViewModel();
    model.FetchStations(Fetched([s]), None, parse, dist);
    shown := model.FilteredStations();
    held := model.stations;
  }

  /** A search cache keyed on the search text and on the station list it was computed from. */
  datatype FilterCache = FilterCache(searchText: string, stations: seq<GasStation>, result: seq<GasStation>)

  /** The cached list is the search result of its own key. */
  ghost predicate KeyedCacheCoherent(c: FilterCache) {
    c.result == SearchResult(c.stations, c.searchText)
  }

  /** The cache as `MainViewModel` starts it, coherent for the empty list. */
  const InitialCache: FilterCache := FilterCache("", [], [])

  /**
   * A read through the keyed cache: it answers from the cache only when both
   * the text and the list are unchanged, so what it returns is always the
   * search over the current list.
   */
  function ReadKeyedCache(c: FilterCache, stations: seq<GasStation>, searchText: string): (r: (seq<GasStation>, FilterCache))
    requires KeyedCacheCoherent(c)
    ensures r.0 == SearchResult(stations, searchText)
    ensures KeyedCacheCoherent(r.1) && r.1.searchText == searchText && r.1.stations == stations
  {
    if c.searchText == searchText && c.stations == stations then (c.result, c)
    else
      var result := SearchResult(stations, searchText);
      (result, FilterCache(searchText, stations, result))
  }

  /** The keyed cache, started like the view model's, shows a freshly fetched list. */
  lemma KeyedCacheShowsFetchedList(s: GasStation)
    ensures KeyedCacheCoherent(InitialCache)
    ensures ReadKeyedCache(InitialCache, [s], "").0 == [s]
  {
  }
}
