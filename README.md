# Party list store of poppin-swift-assessment, modelled in Dafny

The app shows a list of randomly generated "party" cards and filters them by
name as the user types. Apart from its SwiftUI views, `ContentView` holds a
small in-memory store:

- the `@State` list `parties` and the search text `searchText`;
- `addRandomParty()`, which builds one `Party` from random draws and inserts
  it at index 0;
- `generateInitialParties()`, which calls `addRandomParty()` three times;
- the computed property `filteredParties`: the whole list for an empty
  search text, otherwise the parties whose lower-cased name contains the
  lower-cased search text;
- the two fixed reference tables: `partyNames` (ten literal names) and
  `partyImages` (ten images built by `generatePartyImages()`).

The model has five modules:

- `Wrappers`: the `Option` type used for `Date?`.
- `Text`: ASCII `lowercased()`, substring `contains`, and the decimal
  rendering used by `"Party\(index)"`.
- `Parties`: the `Party` record, the tables, one function per random field,
  and `GeneratePartyImages` as a method with its loop.
- `Filter`: `filteredParties` as pure functions, with soundness,
  completeness, order, count and idempotence lemmas.
- `Store`: the class `PartyStore`, holding the state that `ContentView`
  updates. Its methods are `AddRandomParty` and `GenerateInitialParties`,
  plus `SetSearchText` for the search-field binding.

Every random draw and every clock reading is an input. A `Draws` value
bundles one party's draws, and `InRange` restricts each draw to the range it
is drawn from in the source. `UUID()` is modelled as a counter in the store.
The store invariant `Valid()` says four things:

- `partyImages` is the ten-entry table that `generatePartyImages()` builds;
- identifiers are pairwise distinct;
- every identifier is below the next one to be issued;
- every stored party has a name from `partyNames`, an image from
  `partyImages`, and a price in [5, 30] that is a multiple of 0.5.

`filteredParties` only reads the store, so it is a function of
`(parties, searchText)`. A Dafny function cannot change state, so the
filter never alters the store.

## Model

| member | source | states |
|---|---|---|
| `Text.Lowercased` | poppin-swift-assessment/ContentView.swift:19 | lower-casing keeps the length, leaves no upper-case letter, keeps every non-letter, and agrees with the input up to letter case |
| `Text.LowercasedIdempotent` | poppin-swift-assessment/ContentView.swift:19 | lower-casing an already lower-cased string changes nothing |
| `Text.Contains` | poppin-swift-assessment/ContentView.swift:19 | a string can only contain a needle no longer than itself, and contains every needle it starts with |
| `Text.ContainsIffOccurs` | poppin-swift-assessment/ContentView.swift:19 | `contains` holds exactly when the needle occurs as a contiguous block at some position of the string |
| `Text.ContainsSelf` | poppin-swift-assessment/ContentView.swift:19 | every string contains itself |
| `Text.Decimal` | poppin-swift-assessment/ContentView.swift:197 | the interpolated integer is a non-empty string of decimal digits with no leading zero except for 0 itself, at least two of them from 10 on |
| `Text.DecimalRoundTrip` | poppin-swift-assessment/ContentView.swift:197 | reading the rendered digits back gives the original number |
| `Text.DecimalInjective` | poppin-swift-assessment/ContentView.swift:197 | different numbers render differently |
| `Parties.PartyNamesWellFormed` | poppin-swift-assessment/ContentView.swift:205 | the name table `partyNames` has exactly ten entries, each non-empty and all pairwise different |
| `Parties.AssetNameShape` | poppin-swift-assessment/ContentView.swift:197 | the asset name `"Party\(index)"` is the prefix `Party` followed by the canonical digits of the index, which read back as the index |
| `Parties.AssetNameInjective` | poppin-swift-assessment/ContentView.swift:197 | different indices give different asset names `Party<index>` |
| `Parties.GeneratePartyImages` | poppin-swift-assessment/ContentView.swift:194-202 | the table has exactly 10 entries, and entry k loads the asset named "Party" followed by the digits of k+1 |
| `Parties.PartyImagesDistinct` | poppin-swift-assessment/ContentView.swift:194-204 | the ten table entries are pairwise different images |
| `Parties.PartyImageExamples` | poppin-swift-assessment/ContentView.swift:196-199 | the first entry is `Party1` and the last is `Party10` |
| `Parties.GetRandomPartyName` | poppin-swift-assessment/ContentView.swift:75-79 | any index in 0...9 is in bounds; the chosen name is a member of the name table and non-empty |
| `Parties.GetRandomBannerImage` | poppin-swift-assessment/ContentView.swift:81-85 | any index in 0...9 is in bounds of the 10-entry table; the chosen image is a member of it |
| `Parties.Round` | poppin-swift-assessment/ContentView.swift:89 | the result is within 0.5 of the argument, and halfway cases go away from zero |
| `Parties.GetRandomPrice` | poppin-swift-assessment/ContentView.swift:87-91 | for a sample in [5, 30] the price lies in [5, 30], is a multiple of 0.5, and is within 0.25 of the sample |
| `Parties.GetRandomStartDate` | poppin-swift-assessment/ContentView.swift:93-97 | the start date is strictly after now and at most 7 days after |
| `Parties.GetRandomEndDate` | poppin-swift-assessment/ContentView.swift:99-108 | an end date is present exactly when the coin is below 0.5, and then lies 8 to 14 days after now |
| `Parties.NewParty` | poppin-swift-assessment/ContentView.swift:63-70 | the new record carries the given identifier, and all of its fields satisfy the generation constraints |
| `Filter.Matches` | poppin-swift-assessment/ContentView.swift:19 | a matching name is at least as long as the search text, and a name always matches its own text in any letter case |
| `Filter.MatchesIffOccurs` | poppin-swift-assessment/ContentView.swift:19 | a party matches exactly when the lower-cased search text occurs at some position of the lower-cased name |
| `Filter.FilterByName` | poppin-swift-assessment/ContentView.swift:19 | the result is no longer than the list; every result element is in the list and matches the query; every matching party in the list is in the result |
| `Filter.FilteredParties` | poppin-swift-assessment/ContentView.swift:15-21 | an empty search text gives the list itself, unchanged and in order; otherwise a party is in the result exactly when it is in the list and matches |
| `Filter.FilterByNameIsSubsequence` | poppin-swift-assessment/ContentView.swift:19 | the filter result is an order-preserving subsequence of the list |
| `Filter.FilteredPartiesIsSubsequence` | poppin-swift-assessment/ContentView.swift:15-21 | for either branch, `filteredParties` is an order-preserving subsequence of `parties` |
| `Filter.FilterByNameCounts` | poppin-swift-assessment/ContentView.swift:19 | each matching party occurs in the result as often as in the list; a non-matching party does not occur |
| `Filter.FilterByNameIdempotent` | poppin-swift-assessment/ContentView.swift:19 | filtering the result again with the same text gives the same result |
| `Filter.FilterAfterInsert` | poppin-swift-assessment/ContentView.swift:15-21 | after a head insertion, the view is the old view, with the new party in front when it matches or the text is empty |
| `Filter.SearchOwnNameAfterInsert` | poppin-swift-assessment/ContentView.swift:15-21 | a party just inserted is the first search result for its own name, typed in any letter case |
| `Filter.SearchExample` | poppin-swift-assessment/ContentView.swift:15-21 | after inserting "Neon" and then "80s", "eo" yields only Neon, and "" yields both, newest first |
| `Store.Reversed` | poppin-swift-assessment/ContentView.swift:57-61 | reversal, the order in which repeated `insert(_, at: 0)` leaves the inserted elements, keeps the length |
| `Store.ReversedAt` | poppin-swift-assessment/ContentView.swift:57-61 | position k of the reversed sequence holds the k-th element counted from the end |
| `Store.ReversedThree` | poppin-swift-assessment/ContentView.swift:57-61 | three elements reversed are the last, the middle and the first |
| `Store.ReversedSnoc` | poppin-swift-assessment/ContentView.swift:57-61 | inserting one more element at the head of the reversed list gives the reversal of the list extended by that element |
| `Store.CreatedStep` | poppin-swift-assessment/ContentView.swift:57-61 | one more loop iteration creates one more party from the next draw, with the next identifier |
| `Store.CreatedThree` | poppin-swift-assessment/ContentView.swift:57-61 | the three parties created from three draws, newest first, carry identifiers first+2, first+1, first |
| `Store.PrependKeepsWellFormed` | poppin-swift-assessment/ContentView.swift:63-73 | inserting at index 0 a catalogued party with the next identifier keeps identifiers distinct and below the new counter, and every party catalogued |
| `Store.PartyStore.constructor` | poppin-swift-assessment/ContentView.swift:12-13 | the store starts with no parties and empty search text, holds the 10-image table, and satisfies the invariant |
| `Store.PartyStore.SetSearchText` | poppin-swift-assessment/ContentView.swift:13 | only the search text changes |
| `Store.PartyStore.AddRandomParty` | poppin-swift-assessment/ContentView.swift:63-73 | the new party is at index 0, the count grows by one, each old `parties[i]` is unchanged at `i+1`, ids stay distinct, and the invariant is kept |
| `Store.PartyStore.GenerateInitialParties` | poppin-swift-assessment/ContentView.swift:57-61 | exactly three parties are prepended, each made from its draw; the list is the three new records in reverse creation order followed by the old contents; the invariant is kept |

## Left out

- SwiftUI presentation is not modelled: `body`, `PartyListView`, `PartyCardView`, `SearchBar`, `Color.gold` and the previews have no behavioural contract. `SetSearchText` stands for the search field's binding and its clear button.
- The random sources `Int.random`, `Double.random` and the 50% coin are inputs (`Draws`) limited to their ranges. Uniformity and independence of the draws are not modelled.
- `UUID()` is replaced by a counter. Uniqueness is proved only for the parties in one store.
- `Text.Lowercased`: ASCII letters only. Full Unicode case mapping of `String.lowercased()` is not modelled.
- `Text.Contains`: works on characters, not on Swift's grapheme clusters, and does not use Unicode canonical equivalence. Its ensures are light; `Text.ContainsIffOccurs` gives its full meaning.
- `Text.Contains`: answers true for an empty needle, where Foundation's `contains("")` answers false. `filteredParties` never asks that question: it calls `contains` only for a non-empty search text, whose lower-cased form is non-empty too (`Text.Lowercased` keeps the length).
- `Parties.GetRandomPrice`: uses exact real arithmetic. The sample itself is a `Double`, and the model does not restrict it to representable values. For a double in [5, 30], `* 2`, `round` and `/ 2` are all exact in binary64, so the real-number result agrees with the source for every sample the source can draw.
- `Parties.GetRandomStartDate`: dates are whole day numbers, and `Calendar` is assumed to add days without failing. The `?? currentDate` fallback is therefore not modelled.
- `Parties.GetRandomEndDate`: `Calendar` is assumed to add days without failing here too. The source has no fallback for this call, so a failing `Calendar` would give `nil` even when the coin is below 0.5; the model always gives a date then.
- `Parties.NewParty`: the start date and the end date each read the clock in the source. The model reads it once per party, as `Draws.now`.
- `formatDate` and `DateFormatter` are display formatting and are not modelled.
