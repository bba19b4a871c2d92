# gasolinaPrecios — a Dafny model of the station-derivation core

The iOS app lists Spanish fuel stations from the government price service.
This project models the part that derives what the user sees from the
fetched list, and proves properties of it:

- **`GasStation`** (`GasStation.dfy`, module `GasStations`): the decoded
  record, with its parsed coordinates, its full address, the price
  formatter (`"N/A"` for a missing or empty price, otherwise the price with
  `,` turned into `.` and a trailing `€`) and `getPrice(for:)` over the
  eight `FuelType` cases.
- **`MainViewModel`** (`MainViewModel.dfy`, module `ViewModel`): a class
  with the view model's fields. It covers:
  - the token-AND text search and its one-entry cache, keyed on the search
    text only;
  - the refresh from the price service, given as a success or failure
    outcome;
  - the per-fuel-type average prices;
  - the green/primary/red price colouring with a 2 % threshold;
  - the station status message.
- **`StationDetailView`** (`StationDetailView.dfy`, module `StationDetail`):
  the pure decisions of the detail screen. These are the road-side label,
  the metres/kilometres choice, which price rows are listed, and the flags
  a `"24H"` schedule switches on.
- Helpers: `Text.dfy` models the string operations used: Foundation's
  `contains` and single-character `replacingOccurrences`, and the Swift
  standard library's `split(separator:)` and `lowercased()` (ASCII letters
  only). `Sequences.dfy` models `filter`, `compactMap` and `sorted(by:)`.
  `Wrappers.dfy` holds `Option`.

Three things stay abstract. `Double(String)` is a parameter
`parse: string -> Option<real>` (`GasStations.Parser`).
`CLLocation.distance(from:)` is a parameter
`dist: (Coordinate, Coordinate) -> real` (`ViewModel.Distance`). The
device location is an `Option<Coordinate>` input to `FetchStations`.
Prices and averages are exact `real`s, not IEEE doubles.

`fetchStations` is `async`. It is split at its `await` into `BeginFetch`
(sets `isLoading`, clears `error`) and `FinishFetch` (handles the outcome,
clears `isLoading`). `FetchStations` runs the two in sequence.

Behaviour worth noting, modelled as the code has it:
- The averages dictionary is never cleared. A fuel type with no usable
  price in a new list keeps its previous entry. It is not dropped.
- The search cache compares only the search text (see Findings).
- There is no radius bounding, show-all flag or radius fallback in the
  code, so none is modelled.
- A non-empty search does not skip the distance ordering. `stations` is
  already sorted when `fetchStations` stores it, and the search filters
  that sorted list.

## Model

| member | source | states |
|---|---|---|
| `Text.Contains` | gasolinaPrecios/Views/Main/MainViewModel.swift:39 | `contains` never finds a needle longer than the text |
| `Text.ContainsIffOccurs` | gasolinaPrecios/Views/Main/MainViewModel.swift:38-39 | the substring test used by the search holds iff the term occurs at some position of the text |
| `Text.ReplaceChar` | gasolinaPrecios/Models/GasStation.swift:76 | `replacingOccurrences(of: ",", with: ".")` keeps the length, changes exactly the commas, and leaves no comma behind |
| `Text.RemoveChar` | gasolinaPrecios/Views/Main/MainViewModel.swift:91 | removing `€` leaves no `€`, keeps every other character, and is the identity on text without `€` |
| `Text.Lower` | gasolinaPrecios/Views/Main/MainViewModel.swift:35-37 | lower-casing keeps the length and lower-cases each character in place (ASCII letters only) |
| `Text.LowerAppend` | gasolinaPrecios/Views/Main/MainViewModel.swift:37 | lower-casing a concatenation lower-cases each part, so each field of the searchable text is lower-cased on its own |
| `Text.LowerKeepsSpaces` | gasolinaPrecios/Views/Main/MainViewModel.swift:35 | lower-casing neither adds nor removes spaces, so the terms split off are not affected |
| `Text.Split` | gasolinaPrecios/Views/Main/MainViewModel.swift:35 | every term of `split(separator: " ")` is non-empty and has no space |
| `Text.SplitSingleWord` | gasolinaPrecios/Views/Main/MainViewModel.swift:35 | a non-empty text without spaces splits into exactly one term, itself |
| `Text.SplitAroundSpace` | gasolinaPrecios/Views/Main/MainViewModel.swift:35 | splitting two texts joined by a space gives the terms of the first followed by the terms of the second, so splitting cuts at every space and nowhere else |
| `Text.SplitEmptyIffBlank` | gasolinaPrecios/Views/Main/MainViewModel.swift:35 | the split yields no terms exactly when the text is made of spaces only |
| `Text.SplitLosesOnlySpaces` | gasolinaPrecios/Views/Main/MainViewModel.swift:35 | the terms joined end to end equal the text with its spaces removed, so no other character is lost |
| `Sequences.Filter` | gasolinaPrecios/Views/Main/MainViewModel.swift:36-41 | `filter` keeps exactly the elements passing the test, each as often as in the input and none of the others, as an order-preserving subsequence |
| `Sequences.FilterConjunction` | gasolinaPrecios/Views/Main/MainViewModel.swift:36-41 | filtering by one test and then another is filtering by both at once |
| `Sequences.CompactMap` | gasolinaPrecios/Views/Main/MainViewModel.swift:88-95 | `compactMap` yields at most one value per element, and none exactly when the function yields nothing on every element |
| `Sequences.CompactMapOfFilter` | gasolinaPrecios/Views/Main/MainViewModel.swift:88-95 | `compactMap` is the map, one for one and in order, over the elements the function yields a value for |
| `Sequences.CompactMapMembers` | gasolinaPrecios/Views/Main/MainViewModel.swift:88-95 | a value is collected iff the function yields it on some element |
| `Sequences.CompactMapTotal` | gasolinaPrecios/Views/Main/MainViewModel.swift:88-95 | when the function yields a value on every element, `compactMap` is the plain map |
| `Sequences.SortBy` | gasolinaPrecios/Views/Main/MainViewModel.swift:58-75 | `sorted(by:)` returns a rearrangement of its input (same multiset) |
| `GasStations.AllFuelTypesOnce` | gasolinaPrecios/Models/GasStation.swift:110-119 | `FuelType.allCases` lists each of the eight cases exactly once |
| `GasStations.RawValue` | gasolinaPrecios/Models/GasStation.swift:111-118 | each fuel type's raw value, the label of its price row; `RawValuesDistinct` proves them distinct |
| `GasStations.RawValuesDistinct` | gasolinaPrecios/Models/GasStation.swift:110-119 | no two fuel types share a raw value, so the labels of the prices card are distinct |
| `GasStations.Coordinates` | gasolinaPrecios/Models/GasStation.swift:61-67 | a coordinate exists iff both latitude and longitude parse after `,`→`.`, and then it holds those two values; never partial |
| `GasStations.FullAddress` | gasolinaPrecios/Models/GasStation.swift:69-71 | the full address starts with "address, location, ", then holds the municipality, a single space and the postal code at its end, and has exactly the separators' 5 extra characters |
| `GasStations.FormatPrice` | gasolinaPrecios/Models/GasStation.swift:74-77 | the result is never empty; it is "N/A" iff the price is missing or empty; otherwise it is the decimal-point price followed by `€` |
| `GasStations.FormatPriceShape` | gasolinaPrecios/Models/GasStation.swift:76 | a formatted price other than "N/A" ends in `€` and contains no comma |
| `GasStations.FormatPriceRoundTrip` | gasolinaPrecios/Models/GasStation.swift:76 | for a non-empty raw price without `€`, removing `€` from the formatted price gives back the decimal-point raw price |
| `GasStations.FormattedDieselAPrice` | gasolinaPrecios/Models/GasStation.swift:79 | the formatted diesel A price is "N/A" exactly when the diesel A field is missing or empty |
| `GasStations.FormattedDieselPremiumPrice` | gasolinaPrecios/Models/GasStation.swift:80 | the formatted diesel premium price is "N/A" exactly when the diesel premium field is missing or empty |
| `GasStations.FormattedGasoline95E5Price` | gasolinaPrecios/Models/GasStation.swift:81 | the formatted gasoline 95 E5 price is "N/A" exactly when the gasoline 95 E5 field is missing or empty |
| `GasStations.FormattedGasoline95E5PremiumPrice` | gasolinaPrecios/Models/GasStation.swift:82 | the formatted gasoline 95 E5 premium price is "N/A" exactly when the gasoline 95 E5 premium field is missing or empty |
| `GasStations.FormattedGasoline98E5Price` | gasolinaPrecios/Models/GasStation.swift:83 | the formatted gasoline 98 E5 price is "N/A" exactly when the gasoline 98 E5 field is missing or empty |
| `GasStations.FormattedLPGPrice` | gasolinaPrecios/Models/GasStation.swift:84 | the formatted LPG price is "N/A" exactly when the LPG field is missing or empty |
| `GasStations.FormattedCNGPrice` | gasolinaPrecios/Models/GasStation.swift:85 | the formatted CNG price is "N/A" exactly when the CNG field is missing or empty |
| `GasStations.FormattedLNGPrice` | gasolinaPrecios/Models/GasStation.swift:86 | the formatted LNG price is "N/A" exactly when the LNG field is missing or empty |
| `GasStations.GetPrice` | gasolinaPrecios/Models/GasStation.swift:88-107 | total over the eight fuel types; each case formats its own field; never empty; "N/A" iff that field is missing or empty |
| `GasStations.GetPriceReadsOwnField` | gasolinaPrecios/Models/GasStation.swift:79-107 | changing the field of one fuel type changes that type's price only |
| `GasStations.GetPriceIgnoresUnlistedFields` | gasolinaPrecios/Models/GasStation.swift:26-36 | the biodiesel, bioethanol and diesel B prices never affect `getPrice` |
| `ViewModel.SearchableText` | gasolinaPrecios/Views/Main/MainViewModel.swift:37 | the searchable text is the lower-cased address, municipality and location, in that order, separated by single spaces |
| `ViewModel.SearchTerms` | gasolinaPrecios/Views/Main/MainViewModel.swift:35 | the search terms are non-empty and space-free; joined they give the lower-cased text without its spaces; there are none iff the text is blank; a single word is its own only term |
| `ViewModel.SearchTermsAroundSpace` | gasolinaPrecios/Views/Main/MainViewModel.swift:35 | the terms of `a b` are the terms of `a` followed by those of `b` |
| `ViewModel.MatchesAll` | gasolinaPrecios/Views/Main/MainViewModel.swift:38-40 | a station matching all terms has a searchable text at least as long as each term |
| `ViewModel.MatchesAllAppend` | gasolinaPrecios/Views/Main/MainViewModel.swift:38-40 | matching all of two lists of terms is matching each of them |
| `ViewModel.SearchResult` | gasolinaPrecios/Views/Main/MainViewModel.swift:30-41 | an empty search text gives the station list itself; otherwise exactly the stations whose lower-cased "address municipality location" contains every term, each as often as in the list, in original order |
| `ViewModel.SearchResultFilters` | gasolinaPrecios/Views/Main/MainViewModel.swift:30-41 | with or without text, the result is the filter by the text's terms (an empty text has none) |
| `ViewModel.SearchNarrows` | gasolinaPrecios/Views/Main/MainViewModel.swift:35-41 | searching `a b` gives the same list as searching `b` within the result of searching `a` |
| `ViewModel.BlankSearchKeepsAll` | gasolinaPrecios/Views/Main/MainViewModel.swift:35-40 | a search text of spaces only has no terms, so every station is kept, in order |
| `ViewModel.SearchIdempotent` | gasolinaPrecios/Views/Main/MainViewModel.swift:36-41 | searching the result again with the same text reproduces it |
| `ViewModel.SearchIgnoresQueryCase` | gasolinaPrecios/Views/Main/MainViewModel.swift:35 | lower-casing the query first changes nothing: the search ignores the case of ASCII letters |
| `ViewModel.MainViewModel.constructor` | gasolinaPrecios/Views/Main/MainViewModel.swift:6-21 | the initial state: no stations, empty search text, not loading, no error, diesel A selected, no averages, cache holding `""` and `[]`, which is coherent |
| `ViewModel.MainViewModel.FilteredStations` | gasolinaPrecios/Views/Main/MainViewModel.swift:23-44 | a read with the search text equal to the cached text returns the cached list, whatever the stations are now; any other read returns the search over the current stations; afterwards the cache holds the current text and the returned list; a coherent cache stays coherent and then the result is the current search |
| `ViewModel.StaleListAfterFetch` | gasolinaPrecios/Views/Main/MainViewModel.swift:16-32 | after a first successful fetch of one station, with the search text untouched, the list read is empty while the model holds that station |
| `ViewModel.ReadKeyedCache` | gasolinaPrecios/Views/Main/MainViewModel.swift:23-44 | a cache keyed on the search text and the station list always returns the search over the current list, and stays coherent |
| `ViewModel.KeyedCacheShowsFetchedList` | gasolinaPrecios/Views/Main/MainViewModel.swift:16-17 | the keyed cache, started in the view model's initial state, is coherent and shows a freshly fetched list |
| `ViewModel.PriceValue` | gasolinaPrecios/Views/Main/MainViewModel.swift:89-92 | a price of "N/A" yields no value |
| `ViewModel.PriceValueOfRawPrice` | gasolinaPrecios/Views/Main/MainViewModel.swift:89-94 | for a raw price without `€`, the value used for the averages is nothing for a missing or empty price, otherwise the parse of the decimal-point raw price |
| `ViewModel.ContributingPrices` | gasolinaPrecios/Views/Main/MainViewModel.swift:88-95 | the usable prices number at most the stations, and there are none iff no station has a usable price for the fuel type |
| `ViewModel.ContributingPricesOfContributors` | gasolinaPrecios/Views/Main/MainViewModel.swift:88-95 | the collected prices are, one for one and in list order, the usable prices of the stations that have one |
| `ViewModel.ContributingPriceMembers` | gasolinaPrecios/Views/Main/MainViewModel.swift:88-95 | a value is collected iff some station's price for the fuel type yields it |
| `ViewModel.Sum` | gasolinaPrecios/Views/Main/MainViewModel.swift:98 | `reduce(0, +)`: the sum of the prices, by recursion |
| `ViewModel.Mean` | gasolinaPrecios/Views/Main/MainViewModel.swift:98 | the average times the number of prices is their sum |
| `ViewModel.SumBounds` | gasolinaPrecios/Views/Main/MainViewModel.swift:98 | the sum of n prices lies between n times their lower bound and n times their upper bound |
| `ViewModel.MeanBetween` | gasolinaPrecios/Views/Main/MainViewModel.swift:98 | the average lies between the lowest and the highest contributing price |
| `ViewModel.UpdateEntryEffect` | gasolinaPrecios/Views/Main/MainViewModel.swift:97-99 | one turn of the loop can change only the entry of the fuel type it visits, and that entry becomes the mean or stays as it was |
| `ViewModel.UpdateEntriesEffect` | gasolinaPrecios/Views/Main/MainViewModel.swift:87-100 | after visiting some fuel types, their entries are updated and every other entry is as before |
| `ViewModel.UpdateEntry` | gasolinaPrecios/Views/Main/MainViewModel.swift:88-99 | one loop turn: the mean of the fuel type's usable prices is stored if there are any, otherwise the dictionary is unchanged |
| `ViewModel.UpdateEntries` | gasolinaPrecios/Views/Main/MainViewModel.swift:87-100 | the dictionary after the loop has visited the given fuel types in order |
| `ViewModel.UpdatedAverages` | gasolinaPrecios/Views/Main/MainViewModel.swift:86-100 | the dictionary the loop leaves behind, as a fold of one update per fuel type in `allCases` order |
| `ViewModel.UpdatedAveragesEffect` | gasolinaPrecios/Views/Main/MainViewModel.swift:86-100 | every fuel type with usable prices gets their mean; every other keeps its old entry, neither removed nor zeroed |
| `ViewModel.StoredAverageBetween` | gasolinaPrecios/Views/Main/MainViewModel.swift:86-100 | when some station has a usable price and all usable prices lie in [lo, hi], the stored average exists and lies in [lo, hi] |
| `ViewModel.ExampleStationPrices` | gasolinaPrecios/Views/Main/MainViewModel.swift:88-95 | three stations with diesel A prices "1,40", "1,50" and "1,60" contribute 1.40, 1.50 and 1.60, in order |
| `ViewModel.AverageOfThreeStations` | gasolinaPrecios/Views/Main/MainViewModel.swift:86-100 | after those three stations are fetched, the stored diesel A average is 1.50, whatever was stored before |
| `ViewModel.MainViewModel.CalculateAveragePrices` | gasolinaPrecios/Views/Main/MainViewModel.swift:86-101 | the loop over `allCases` leaves `averagePrices` equal to the specified update of its old value |
| `ViewModel.Classify` | gasolinaPrecios/Views/Main/MainViewModel.swift:109-118 | green iff the difference is at most minus 2 % of the average; red iff it is not green and the difference is at least 2 %; primary iff strictly between; both boundaries inclusive |
| `ViewModel.ClassifyPositiveAverage` | gasolinaPrecios/Views/Main/MainViewModel.swift:109-118 | with a positive average, green iff price ≤ 0.98·average and red iff price ≥ 1.02·average |
| `ViewModel.ClassifyExamples` | gasolinaPrecios/Views/Main/MainViewModel.swift:109-118 | 1.47 against 1.50 is green (on the boundary), 1.50 against itself primary, 1.53 against 1.50 red |
| `ViewModel.MainViewModel.GetPriceColor` | gasolinaPrecios/Views/Main/MainViewModel.swift:103-119 | primary when there is no average for the fuel type or the price without `€` does not parse; otherwise the classification against the average |
| `ViewModel.MainViewModel.PriceColorOfStation` | gasolinaPrecios/Views/Main/MainViewModel.swift:103-107 | the colour of a station's own formatted price is the classification of its decimal-point raw price |
| `ViewModel.GetStationStatus` | gasolinaPrecios/Views/Main/MainViewModel.swift:121-128 | always open; the message is "Abierto 24h" if the schedule contains "24H", otherwise the schedule itself |
| `ViewModel.CloserToUser` | gasolinaPrecios/Views/Main/MainViewModel.swift:58-75 | one station is closer than another only when both have coordinates |
| `ViewModel.CloserToUserStrict` | gasolinaPrecios/Views/Main/MainViewModel.swift:58-75 | the comparator never puts a station before itself and is transitive |
| `ViewModel.SortByDistance` | gasolinaPrecios/Views/Main/MainViewModel.swift:58-75 | the distance-sorted list is a permutation of the fetched list |
| `ViewModel.MainViewModel.BeginFetch` | gasolinaPrecios/Views/Main/MainViewModel.swift:46-48 | before the service is awaited, `isLoading` is set and `error` cleared |
| `ViewModel.MainViewModel.FinishFetch` | gasolinaPrecios/Views/Main/MainViewModel.swift:50-83 | on failure, stations and averages are unchanged and the error is set; on success, the averages are updated, and the stations are the fetched list without a location, or its distance sort with one (a permutation); `isLoading` ends false |
| `ViewModel.MainViewModel.FetchStations` | gasolinaPrecios/Views/Main/MainViewModel.swift:46-84 | ends not loading; the error is set exactly on failure; failure leaves stations and averages untouched; success stores a permutation of the fetched list, equal to it without a location |
| `StationDetail.InterpretMargin` | gasolinaPrecios/Views/Components/StationDetailView.swift:130-139 | "Derecho" iff the margin is "D", "Izquierdo" iff "I", "No especificado" for anything else |
| `StationDetail.FormatDistance` | gasolinaPrecios/Views/Components/StationDetailView.swift:122-128 | metres iff the distance is below 1000, with the distance itself; otherwise kilometres with the value distance/1000 (at least 1) |
| `StationDetail.DistanceRow` | gasolinaPrecios/Views/Components/StationDetailView.swift:64-75 | the distance row appears iff the station has a coordinate and the user location is known, and shows the formatted distance between them |
| `StationDetail.ListedFuelTypes` | gasolinaPrecios/Views/Components/StationDetailView.swift:86-93 | the prices card lists exactly the fuel types whose price is not "N/A", in `FuelType` declaration order |
| `StationDetail.ListedIffSold` | gasolinaPrecios/Views/Components/StationDetailView.swift:86-93 | a fuel type is listed iff the station's field for it is present and non-empty |
| `StationDetail.ListedPrices` | gasolinaPrecios/Views/Components/StationDetailView.swift:86-93 | every listed fuel type has a present raw price, shown with a decimal point and a euro sign |
| `StationDetail.PriceRows` | gasolinaPrecios/Views/Components/StationDetailView.swift:86-93 | one row per listed fuel type, in order, labelled with the fuel type's raw value and showing its decimal-point price with `€` |
| `StationDetail.ScheduleCardOf` | gasolinaPrecios/Views/Components/StationDetailView.swift:27-41 | the indicator is green and labelled "Abierto 24h" iff the schedule contains "24H", else "Horario regular"; the "confirm the schedule" note appears iff it does not |
| `StationDetail.ServicesOf` | gasolinaPrecios/Views/Components/StationDetailView.swift:98-111 | "Autoservicio" and "Abierto 24h" are available iff the schedule contains "24H"; "Tienda" always is |
| `StationDetail.ScheduleViewsAgree` | gasolinaPrecios/Views/Components/StationDetailView.swift:29-41 | the services card marks 24-hour opening exactly when the status card shows no note, and then the view model's status message equals the card's label |
| `StationDetail.AllDayScheduleExample` | gasolinaPrecios/Views/Components/StationDetailView.swift:98-110 | the schedule "L-D: 24H" turns every service on and shows no note |

## Left out

- The HTTP request, status check, JSON decoding and logging of the price service: `FetchStations` takes the outcome as an input.
- Location acquisition, permissions and delegate callbacks: the user location is an optional input.
- `CLLocation.distance(from:)`: an abstract parameter, so no property of distances (symmetry, zero on equal points) is assumed or proved.
- `Double(String)`: an abstract parser; which strings parse, and to what value, is not modelled.
- `ViewModel.SortByDistance`: states only that the result is a permutation of the fetched list. The comparator returns `false` whenever either station lacks a coordinate, which is not a strict weak ordering, so no order is claimed. An insertion sort stands in for the standard library's sort.
- `Text.Lower`: lower-cases ASCII letters only. Swift's full Unicode case mapping (accented capitals such as "Á" or "Ñ") is not modelled.
- `Text.Contains`: compares Unicode scalars one by one. Swift compares grapheme clusters under canonical equivalence, which is not modelled.
- `String` equality compares Unicode scalars, not canonically equivalent grapheme clusters as Swift does. This affects the cache key test and the empty-text test (MainViewModel.swift:24, 30) and the margin switch (StationDetailView.swift:131).
- `Text.ReplaceChar`, `Text.RemoveChar`: replace or remove every matching scalar. Foundation's `replacingOccurrences` (GasStation.swift:62-63, 76; MainViewModel.swift:91, 105) searches by `Character`, so a `,` or `€` followed by a combining mark is left in place; that case is not modelled.
- `Text.Split`: tests each character against the space by scalar equality, where Swift compares `Character`s under canonical equivalence.
- `String.contains` on an empty needle is not modelled as Foundation defines it. The model never applies it to one: search terms are non-empty and the other needle is "24H".
- `StationDetail.FormatDistance`: models the choice of unit and the value only, not the `%.0f`/`%.1f` rounding or the printed text.
- Floating-point rounding in the sum, the division and the `0.02` threshold: prices and averages are exact reals.
- `@MainActor`, `async` interleavings and overlapping refreshes. The suspension in `fetchStations` appears only as the split into `BeginFetch` and `FinishFetch`.
- The `id` UUID is an opaque natural number; its generation is not modelled.
- `selectedFuelType` is a field of the class, but no modelled operation changes it.
- All SwiftUI and MapKit layout, the splash screen, the fuel selector tables, the icon tables and the app entry point.

## Findings

| source | as written | input that shows it | evidently intended | confidence | as-written member | corrected member |
|---|---|---|---|---|---|---|
| gasolinaPrecios/Views/Main/MainViewModel.swift:16-32 | `filteredStations` returns the cached list whenever `searchText == lastSearchText`. The cache starts as `""` and `[]`, and `fetchStations` replaces `stations` without touching the cache. | A first successful fetch of one station, with the search field left empty. `filteredStations` then returns `[]` while `stations` holds the station. The same staleness follows any refresh under an unchanged non-empty search. | The list read is always the search over the current `stations`, with the cache keyed on the text and the list. | not executed | `ViewModel.StaleListAfterFetch` | `ViewModel.ReadKeyedCache` |

`MainViewModel` itself keeps the cache as written. The keyed cache
`ViewModel.ReadKeyedCache` (on the value `ViewModel.FilterCache`) is the
corrected definition beside it.
