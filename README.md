# TripLog view and view-model logic in Dafny

TripLog is an iOS travel journal. A trip is a *main card*: a title, a
thumbnail, a date and a list of *sub-cards*. A sub-card is one stop, with its
title, images, star rating, price, location, category and notes. This project
models what the app's screens and view models do with that state:

- the five-star rating control (`StarRateView.tapStar`);
- the sub-card list and its editing draft (`SubCardsViewModel`): lookup,
  replace, bulk delete, and the draft setters with the price guard;
- the two price fields:
  - `PriceCell` strips grouping commas, repairs a second decimal point and
    reformats the text;
  - `PriceView` reads its price without commas and converts it by a rate;
- the location search results (`SearchLocationViewModel`) and the id-only
  identity of `LocationDTO`;
- the main screen's persistence (`MainViewController`): on every change of
  the card list, it writes every card and then commits, stopping at the first
  error. Loading replaces the list with what the store read. Errors are routed
  to an alert or to the console;
- the card edit screen (`MainCardEditViewController`): it turns its title,
  image and selected card into commands on the main view model.

Layout:

- `wrappers.dfy`: `Option` and `Result` (module `Wrappers`).
- `foundation.dfy`: module `Foundation`.
  - Handles for `UUID`, `UIImage`, `MKMapItem` and `Date`.
  - The default currency code.
  - `Numerics`, a record of three uninterpreted functions standing for
    `Double(_:)`, `NumberFormatter.string(from:)` and floating-point division.
- `text.dfy`: Swift's `split`/`joined` on strings (module `Text`), with the
  facts the price code relies on.
- `collections.dfy`: `firstIndex(where:)` by id (module `Collections`).
- One file per modelled source file:
  - `star_rate.dfy`, `sub_cards.dfy`, `price_cell.dfy`, `price_view.dfy`;
  - `location.dfy`, `search_location.dfy`;
  - `main_cards.dfy` (the card types and the two collaborators the main
    screens call), `main_screen.dfy`, `main_card_edit.dfy`.

Classes model the objects whose fields the source updates:

| class | models |
|---|---|
| `StarRateView` | `starState`, an `array<bool>` |
| `SubCardsViewModel` | `list` and `editingSubCard` |
| `PriceCell` / `PriceView` | text field, button title, log of delegate calls |
| `SearchLocationViewModel` | search results and saved location |
| `MainViewController` | alerts shown and lines printed |
| `MainCardEditViewController` | selected id, title text, image, add-button visibility, dismissal |

Collaborators whose code is not part of this model are gateway classes that
record each call:

- `MainViewModel` stands for `MainViewModelProtocol`. It records commands and
  leaves open what they do to the list.
- `MainDataManager` stands for the Core Data store. The n-th call it receives
  fails with `failure(n)`, and a successful read returns `stored(n)`.
- Randomness (`UUID()`), the clock (`.now`) and the user-defaults currency
  lookup are parameters.

## Model

| member | source | states |
|---|---|---|
| Collections.FirstIndex | TripLog/ViewModel/SubCardsViewModel.swift:19-22 | `None` exactly when no element has the id; otherwise the index of an element with the id and no earlier one |
| Collections.FirstIndexUnique | TravelLog/MainView/MainCardEditViewController/MainCardEditViewController.swift:52-56 | an index holding the id, with no earlier match, is the one `firstIndex` finds |
| Collections.FirstIndexExtend | TravelLog/ViewModel/SearchLocationViewModel.swift:23-27 | a match found in a list is still the first match after more elements are appended |
| Collections.FirstIndexAppendNew | TravelLog/ViewModel/SearchLocationViewModel.swift:58-61 | an element appended behind elements with other ids is found at the end |
| Text.SplitOmittingEmpty | TravelLog/SubCardsView/SubCardEditViewController/CellAndHeader/PriceCell.swift:61 | `split(separator:)`: every piece is non-empty |
| Text.SplitOmittingEmptyPieces | TravelLog/SubCardsView/SubCardEditViewController/CellAndHeader/PriceCell.swift:61 | every piece of `split(separator:)` is free of the separator |
| Text.StripCommas | TravelLog/SubCardsView/SubCardEditViewController/CellAndHeader/PriceCell.swift:61 | `split(separator: ",").joined()` is the text with every comma deleted (`Remove`, whose own properties are in `RemoveSpec`) |
| Text.SplitKeepingEmpty | TravelLog/SubCardsView/SubCardEditViewController/CellAndHeader/PriceCell.swift:62-64 | `split(separator:maxSplits:omittingEmptySubsequences: false)`: at least one piece; `SplitKeepingEmptySpec` gives the exact count, the pieces and the round trip |
| Text.StripCommasSpec | TravelLog/SubCardsView/SubCardEditViewController/CellAndHeader/PriceCell.swift:61 | `split(separator: ",").joined()` removes every comma and nothing else: no comma is left; the length drops by the number of commas; it is idempotent; it is the identity on comma-free text |
| Text.SplitKeepingEmptyLength | TravelLog/SubCardsView/SubCardEditViewController/CellAndHeader/PriceCell.swift:62-64 | splitting with at most `m` cuts gives `min(count, m) + 1` pieces |
| Text.SplitKeepingEmptyJoin | TravelLog/SubCardsView/SubCardEditViewController/CellAndHeader/PriceCell.swift:62-64 | joining the pieces with the separator gives the input back |
| Text.SplitKeepingEmptyPieces | TravelLog/SubCardsView/SubCardEditViewController/CellAndHeader/PriceCell.swift:62-64 | every piece but the last is free of the separator |
| Text.JoinedSplitIsRemove | TravelLog/SubCardsView/SubCardEditViewController/CellAndHeader/PriceCell.swift:61 | splitting on a character with empty pieces omitted, then joining, is deleting that character |
| Text.RemoveSpec | TravelLog/SubCardsView/SubCardEditViewController/CellAndHeader/PriceCell.swift:61 | deleting a character leaves none of it, shortens by its count, and is idempotent |
| Text.StripCommasConcat | TravelLog/SubCardsView/SubCardEditViewController/CellAndHeader/PriceCell.swift:77 | commas are stripped piecewise: stripping `a + b` is stripping `a`, then `b`, and concatenating |
| Text.StripCommasDropsComma | TravelLog/ViewComponent/PriceView.swift:26 | a comma at any position does not change the stripped text |
| Text.SplitKeepingEmptySpec | TravelLog/SubCardsView/SubCardEditViewController/CellAndHeader/PriceCell.swift:62-64 | splitting with at most `m` cuts and empty pieces kept gives `min(count, m) + 1` pieces; every piece but the last is free of the separator; joining the pieces with the separator gives the input back |
| Text.IndexOfAfter | TravelLog/SubCardsView/SubCardEditViewController/CellAndHeader/PriceCell.swift:85-87 | in `a + "." + b` with no `.` in `a`, the first `.` is at position `|a|` |
| PriceCellComponent.FormatIntegerPart | TravelLog/SubCardsView/SubCardEditViewController/CellAndHeader/PriceCell.swift:89-90 | `nil` when the integer part with its commas deleted does not parse; otherwise the formatter's output for the parsed value |
| PriceCellComponent.FormatNumberString | TravelLog/SubCardsView/SubCardEditViewController/CellAndHeader/PriceCell.swift:81-97 | `formatNumberString`: `nil` exactly when the text before the first `.` does not parse or format; without a `.`, the formatted integer part |
| PriceCellComponent.FormatNumberWithoutDot | TravelLog/SubCardsView/SubCardEditViewController/CellAndHeader/PriceCell.swift:85-96 | without a `.`, `formatNumberString` is the formatted comma-free number, or `nil` when it does not parse or format |
| PriceCellComponent.ComponentsAroundDot | TravelLog/SubCardsView/SubCardEditViewController/CellAndHeader/PriceCell.swift:85-87 | with one `.` the components are the text before it and the text after it |
| PriceCellComponent.SplitAfterDot | TravelLog/SubCardsView/SubCardEditViewController/CellAndHeader/PriceCell.swift:85-87 | the first cut falls at the first `.` |
| PriceCellComponent.FormatNumberWithOneDot | TravelLog/SubCardsView/SubCardEditViewController/CellAndHeader/PriceCell.swift:85-96 | with one `.`, the result is the formatted integer part, a `.`, and the fraction digits as typed; `nil` when the integer part does not parse |
| PriceCellComponent.ComponentsAroundTwoDots | TravelLog/SubCardsView/SubCardEditViewController/CellAndHeader/PriceCell.swift:85-87 | with two `.` or more, the components are the text before the first, the text between the first two, and everything after the second |
| PriceCellComponent.FormatNumberDropsThirdPiece | TravelLog/SubCardsView/SubCardEditViewController/CellAndHeader/PriceCell.swift:85-96 | with two or more `.`, the result ignores the second `.` and everything after it |
| PriceCellComponent.MoreThanTwoComponents | TravelLog/SubCardsView/SubCardEditViewController/CellAndHeader/PriceCell.swift:62-67 | `components.count > 2` holds exactly when the comma-free text has two or more `.` |
| PriceCellComponent.TrailingDotComponents | TravelLog/SubCardsView/SubCardEditViewController/CellAndHeader/PriceCell.swift:62-70 | two components with an empty second one holds exactly when the text has one `.`, and it is the last character |
| PriceCellComponent.Candidate | TravelLog/SubCardsView/SubCardEditViewController/CellAndHeader/PriceCell.swift:66-67 | the text that is parsed: a prefix of the comma-free text, at most one character shorter, and equal to it exactly when it holds fewer than two `.` |
| PriceCellComponent.SecondDotIsDropped | TravelLog/SubCardsView/SubCardEditViewController/CellAndHeader/PriceCell.swift:66-67 | a second `.` typed behind `a.b` is removed before parsing, so the candidate is `a.b` again |
| Foundation.CurrentCurrency | TravelLog/SubCardsView/SubCardEditViewController/CellAndHeader/PriceCell.swift:114-118 | the stored currency code when there is one, otherwise "KRW" |
| PriceCellComponent.PriceCell.constructor | TravelLog/SubCardsView/SubCardEditViewController/CellAndHeader/PriceCell.swift:114-120 | empty field, nothing reported; the button shows the stored currency code, or "KRW" when none is stored |
| PriceCellComponent.PriceCell.UpdatePrice | TravelLog/SubCardsView/SubCardEditViewController/CellAndHeader/PriceCell.swift:39-47 | a `nil` price changes nothing; otherwise the field shows the formatted price, or reads empty when formatting fails; the button and the delegate are untouched |
| PriceCellComponent.PriceCell.UpdateButtonTitle | TravelLog/SubCardsView/SubCardEditViewController/CellAndHeader/PriceCell.swift:49-53 | only the button title changes |
| PriceCellComponent.PriceCell.DidTextFieldChange | TravelLog/SubCardsView/SubCardEditViewController/CellAndHeader/PriceCell.swift:55-79 | `nil` text: nothing changes. Text whose comma-free form ends in its only `.`: the field shows `formatNumberString` (empty when that is `nil`) and the delegate is not called. Otherwise the comma-free text is parsed, less its last character when it has two or more `.`. If that fails, nothing changes; if it succeeds, the field shows the formatted number (empty when formatting fails) and the delegate receives the formatter's output without commas |
| PriceViewComponent.PriceOfText | TravelLog/ViewComponent/PriceView.swift:25-30 | the `price` getter: `0` for `nil` text or text that does not parse once its commas are stripped, otherwise the parsed value |
| PriceViewComponent.PriceIgnoresGroupingCommas | TravelLog/ViewComponent/PriceView.swift:25-30 | inserting a comma anywhere in the text does not change the price |
| PriceViewComponent.ReportedTextHasFieldPrice | TravelLog/ViewComponent/PriceView.swift:81-84 | the text handed to the delegate parses to the same price as the field |
| PriceViewComponent.PriceView.Price | TravelLog/ViewComponent/PriceView.swift:25-30 | the `price` getter reads the field's current text through `PriceOfText` |
| PriceViewComponent.PriceView.constructor | TravelLog/ViewComponent/PriceView.swift:119-125 | empty field; the button shows the stored currency code, or "KRW" when none is stored |
| PriceViewComponent.PriceView.UpdatePrice | TravelLog/ViewComponent/PriceView.swift:54-62 | a `nil` price changes nothing; otherwise the field shows the formatted price, or reads empty when formatting fails |
| PriceViewComponent.PriceView.UpdatePriceView | TravelLog/ViewComponent/PriceView.swift:64-79 | a `nil` price changes neither the field nor the button; otherwise the field shows the price divided by the rate (empty when formatting fails), and the button shows the given title |
| PriceViewComponent.PriceView.DidTextFieldChange | TravelLog/ViewComponent/PriceView.swift:81-84 | the delegate receives the field's text without commas (`nil` stays `nil`); the view itself is unchanged |
| StarRate.FilledCount | TravelLog/ViewComponent/StarRateView.swift:94 | the number of filled slots is at most the number of slots |
| StarRate.FilledCountOfStars | TravelLog/ViewComponent/StarRateView.swift:94 | a rating of `n` stars has `n` filled slots, and they form a prefix |
| StarRate.Tapped | TravelLog/ViewComponent/StarRateView.swift:96-109 | the five slots after a tap on slot `k`; its properties are the `Tap*` lemmas below |
| StarRate.TapFillsLeftClearsRight | TravelLog/ViewComponent/StarRateView.swift:103-109 | after a tap on slot `k`, every slot before `k` is filled and every slot after it is empty |
| StarRate.TapEmptySlot | TravelLog/ViewComponent/StarRateView.swift:96-97 | tapping an empty slot `k` gives a rating of `k + 1` |
| StarRate.TapLastFilledSlot | TravelLog/ViewComponent/StarRateView.swift:99-100 | tapping slot `k` when it is filled and exactly `k + 1` slots are filled gives a rating of `k` |
| StarRate.TapOtherFilledSlot | TravelLog/ViewComponent/StarRateView.swift:96-109 | tapping a filled slot `k` when the count is not `k + 1` gives a rating of `k + 1` |
| StarRate.TapGivesFilledPrefix | TravelLog/ViewComponent/StarRateView.swift:96-109 | from any slots, a tap leaves a filled prefix of `k` or `k + 1` slots, and `k` exactly when the tap clears the tapped slot |
| StarRate.TapOnRating | TravelLog/ViewComponent/StarRateView.swift:94-109 | as ratings: from `n` stars a tap on slot `k` gives `k` stars when `n == k + 1`, and `k + 1` otherwise |
| StarRate.TapExamples | TravelLog/ViewComponent/StarRateView.swift:94-109 | from no stars, two taps on slot 2 give three stars and then two; from three stars, a tap on slot 4 gives five |
| StarRate.StarRateView.constructor | TravelLog/ViewComponent/StarRateView.swift:22 | five empty slots, nothing sent to the delegate |
| StarRate.StarRateView.TapStar | TravelLog/ViewComponent/StarRateView.swift:90-120 | the slot array, updated in place, becomes `Tapped` of the old slots; the delegate receives the new slots |
| SubCards.Remaining | TripLog/ViewModel/SubCardsViewModel.swift:42-44 | the filter of `deleteSubCard`: no longer than the list, and no remaining card has an id in the set |
| SubCards.RemainingMembers | TripLog/ViewModel/SubCardsViewModel.swift:40-45 | after a bulk delete, a card remains exactly when it was in the list and its id is not in the set |
| SubCards.RemainingConcat | TripLog/ViewModel/SubCardsViewModel.swift:40-45 | the remaining cards keep their relative order |
| SubCards.RemainingAbsent | TripLog/ViewModel/SubCardsViewModel.swift:40-45 | deleting ids that no card has changes nothing |
| SubCards.RemainingIdempotent | TripLog/ViewModel/SubCardsViewModel.swift:40-45 | deleting the same ids twice is deleting them once |
| SubCards.Suffix | TripLog/ViewModel/SubCardsViewModel.swift:64-65 | `suffix(n)`: the last `n` characters, or the whole text when it is shorter |
| SubCards.DraftPrice | TripLog/ViewModel/SubCardsViewModel.swift:63-71 | the draft price stays for `nil` text and for text ending in a `.` that does not follow another `.`; otherwise it becomes `Double(text)`, which is `nil` when the text does not parse |
| SubCards.DraftPriceIdempotent | TripLog/ViewModel/SubCardsViewModel.swift:63-71 | feeding the same text twice has the effect of feeding it once |
| SubCards.DraftPriceExamples | TripLog/ViewModel/SubCardsViewModel.swift:63-71 | "12." and "." keep the old price; "1..", "1.2.3" and "12" are handed to the parser |
| SubCards.SubCardsViewModel.constructor | TripLog/ViewModel/SubCardsViewModel.swift:11-12 | no sub-cards; the given draft |
| SubCards.SubCardsViewModel.SelectCard | TripLog/ViewModel/SubCardsViewModel.swift:18-27 | `nil` exactly when no sub-card has the id; otherwise the first sub-card with that id |
| SubCards.SubCardsViewModel.UpdateSubCard | TripLog/ViewModel/SubCardsViewModel.swift:29-38 | the first sub-card with the id is replaced and every other entry stays; an unknown id changes nothing; the draft is untouched |
| SubCards.SubCardsViewModel.DeleteSubCard | TripLog/ViewModel/SubCardsViewModel.swift:40-45 | the list becomes the cards whose id is not in the set, in order |
| SubCards.SubCardsViewModel.UpdateEditingCardTitle | TripLog/ViewModel/SubCardsViewModel.swift:51-53 | only the draft's title changes; the list is untouched |
| SubCards.SubCardsViewModel.UpdateEditingCardImages | TripLog/ViewModel/SubCardsViewModel.swift:55-57 | only the draft's images change; the list is untouched |
| SubCards.SubCardsViewModel.UpdateEditingCardStarState | TripLog/ViewModel/SubCardsViewModel.swift:59-61 | only the draft's star state changes; the list is untouched |
| SubCards.SubCardsViewModel.UpdateEditingCardPrice | TripLog/ViewModel/SubCardsViewModel.swift:63-71 | only the draft's price changes, to `DraftPrice`; the list is untouched |
| SubCards.SubCardsViewModel.UpdateEditingCardLocation | TripLog/ViewModel/SubCardsViewModel.swift:73-76 | only the draft's location changes; the list is untouched |
| SubCards.SubCardsViewModel.UpdateEditingCardCategory | TripLog/ViewModel/SubCardsViewModel.swift:78-80 | only the draft's category changes; the list is untouched |
| SubCards.SubCardsViewModel.UpdateEditingCardScript | TripLog/ViewModel/SubCardsViewModel.swift:82-84 | only the draft's script changes; the list is untouched |
| Location.MakeLocation | TravelLog/Model/LocationDTO.swift:10-13 | `LocationDTO(mapItem:)` carries the given map item and a new id |
| Location.DefaultLocation | TravelLog/Model/LocationDTO.swift:10-13 | `LocationDTO()` has a new id and no map item |
| Location.Equal | TravelLog/Model/LocationDTO.swift:18-20 | `==` compares the two ids' `hashValue`s; its properties are the lemmas below |
| Location.HashInto | TravelLog/Model/LocationDTO.swift:22-24 | `hash(into:)` adds the id, and only the id, to the hasher |
| Location.EqualIgnoresMapItem | TravelLog/Model/LocationDTO.swift:18-20 | two values with the same id are `==`, whatever their map items |
| Location.EqualIsEquivalence | TravelLog/Model/LocationDTO.swift:18-20 | `==` is reflexive, symmetric and transitive |
| Location.EqualById | TravelLog/Model/LocationDTO.swift:16-24 | identity by id itself, the equality that `hash(into:)` agrees with |
| Location.EqualByIdImpliesEqualHash | TravelLog/Model/LocationDTO.swift:22-24 | values equal by id hash alike from any hasher state, with no assumption on `hashValue` |
| Location.EqualAgreesWithEqualById | TravelLog/Model/LocationDTO.swift:18-20 | when `hashValue` does not collide, `==` holds exactly when the ids are equal |
| Location.EqualWithoutEqualHash | TravelLog/Model/LocationDTO.swift:18-24 | with a colliding `hashValue`, two locations with different ids are `==` and still hash differently |
| Location.EqualImpliesEqualHash | TravelLog/Model/LocationDTO.swift:16-24 | `==` values hash alike, provided `hashValue` does not collide on two different UUIDs |
| SearchLocation.SearchLocationViewModel.constructor | TravelLog/ViewModel/SearchLocationViewModel.swift:12-13 | no results; the saved location is a default one |
| SearchLocation.SearchLocationViewModel.SavedLocationMapItem | TravelLog/ViewModel/SearchLocationViewModel.swift:15-17 | the map item of the saved location |
| SearchLocation.SearchLocationViewModel.SelectedLocation | TravelLog/ViewModel/SearchLocationViewModel.swift:23-31 | the first result with the id when there is one; otherwise a new default location |
| SearchLocation.SearchLocationViewModel.UpdateSavedLocation | TravelLog/ViewModel/SearchLocationViewModel.swift:42-44 | the saved location is replaced; the results are untouched |
| SearchLocation.SearchLocationViewModel.UpdateSavedLocationMapItem | TravelLog/ViewModel/SearchLocationViewModel.swift:46-48 | only the saved location's map item changes; its id stays |
| SearchLocation.SearchLocationViewModel.AppendLocationModel | TravelLog/ViewModel/SearchLocationViewModel.swift:58-61 | one result with the map item and a new id is added at the end |
| SearchLocation.SearchLocationViewModel.ClearPlaces | TravelLog/ViewModel/SearchLocationViewModel.swift:63-65 | no results remain; the saved location is untouched |
| SearchLocation.SelectedAfterAppend | TravelLog/ViewModel/SearchLocationViewModel.swift:23-31 | a result appended with an unused id is found at the end of the list |
| SearchLocation.SelectedStableUnderAppend | TravelLog/ViewModel/SearchLocationViewModel.swift:23-31 | appending never changes which result an id already present selects |
| MainCards.MainDataManager.WriteMainCard | TravelLog/MainView/MainViewController/MainViewController.swift:39 | the write is recorded, and it throws the store's error for its position, if any |
| MainCards.MainDataManager.SaveContext | TravelLog/MainView/MainViewController/MainViewController.swift:42 | the commit is recorded, and it throws the store's error for its position, if any |
| MainCards.MainDataManager.ReadMainCards | TravelLog/MainView/MainViewController/MainViewController.swift:64 | the read is recorded; it throws the store's error for its position, or returns the stored cards |
| MainCards.MainViewModel.AppendMainCard | TravelLog/ViewModel/Protocol/MainViewModelProtocol.swift:15 | the command is recorded |
| MainCards.MainViewModel.EditMainCardTitle | TravelLog/ViewModel/Protocol/MainViewModelProtocol.swift:19 | the command is recorded |
| MainCards.MainViewModel.EditMainCardImage | TravelLog/ViewModel/Protocol/MainViewModelProtocol.swift:20 | the command is recorded |
| MainCards.MainViewModel.EditMainCardDate | TravelLog/ViewModel/Protocol/MainViewModelProtocol.swift:21 | the command is recorded |
| MainScreen.WritesSnoc | TravelLog/MainView/MainViewController/MainViewController.swift:38-40 | one more loop step adds the write of the next card at the end |
| MainScreen.Writes | TravelLog/MainView/MainViewController/MainViewController.swift:38-40 | one write per card, in list order |
| MainScreen.SyncTrace | TravelLog/MainView/MainViewController/MainViewController.swift:37-42 | the store calls of one sync and the error that ends it: at least one call and at most one per card plus the commit, the first being the first card's write, or the commit when there is no card |
| MainScreen.SyncAllSucceed | TravelLog/MainView/MainViewController/MainViewController.swift:37-42 | when no call throws, every card is written once, in order, then one commit follows, and no error is reported |
| MainScreen.SyncStopsAtFailedWrite | TravelLog/MainView/MainViewController/MainViewController.swift:37-43 | when the write of card `k` is the first to throw, cards `0..k` are written, no later card is written, no commit happens, and that error ends the sync |
| MainScreen.SyncCommitFails | TravelLog/MainView/MainViewController/MainViewController.swift:37-44 | when only the commit throws, all cards were written and the commit's error ends the sync |
| MainScreen.SyncReachesCommit | TravelLog/MainView/MainViewController/MainViewController.swift:37-42 | when no write throws, every card is written in order, then the commit, whose outcome ends the sync |
| MainScreen.SyncPrefix | TravelLog/MainView/MainViewController/MainViewController.swift:37-43 | the calls of any sync are a prefix of "every write, then the commit" |
| MainScreen.SyncCommitsIff | TravelLog/MainView/MainViewController/MainViewController.swift:37-43 | the commit is reached exactly when no write throws |
| MainScreen.SyncErrorIff | TravelLog/MainView/MainViewController/MainViewController.swift:37-50 | no error is reported exactly when no call of the sync throws |
| MainScreen.MainViewController.constructor | TravelLog/MainView/MainViewController/MainViewController.swift:12 | the controller holds its view model; no alert shown, nothing printed |
| MainScreen.MainViewController.OnListEmission | TravelLog/MainView/MainViewController/MainViewController.swift:33-51 | on each emission the store receives exactly the calls of `SyncTrace` for the current list. A `CoreDataError` ending the sync shows one alert with its description and prints nothing. Any other error is only printed. Without an error nothing is shown or printed |
| MainScreen.MainViewController.WriteBack | TravelLog/MainView/MainViewController/MainViewController.swift:37-42 | the write loop and the commit make the calls of `SyncTrace` and return its error |
| MainScreen.MainViewController.ReportSyncError | TravelLog/MainView/MainViewController/MainViewController.swift:44-50 | a `CoreDataError` goes to an alert with its description; any other error goes to the console |
| MainScreen.MainViewController.LoadData | TravelLog/MainView/MainViewController/MainViewController.swift:62-73 | one read. On success the list becomes exactly what was read, with no alert or output. On failure the list stays; a `CoreDataError` is alerted with its description; every error's localized description is printed |
| MainCardEdit.MainCardEditViewController.constructor | TravelLog/MainView/MainCardEditViewController/MainCardEditViewController.swift:21-25 | no selected card, no image, add button shown |
| MainCardEdit.MainCardEditViewController.Editing | TravelLog/MainView/MainCardEditViewController/MainCardEditViewController.swift:27-33 | the selected card is `id`, and the screen is filled in as `loadMainCard` says |
| MainCardEdit.MainCardEditViewController.LoadMainCard | TravelLog/MainView/MainCardEditViewController/MainCardEditViewController.swift:51-67 | an unknown id changes nothing. For the first card with the id, the title field shows its title, its image (when it has one) is shown, and the add button is hidden exactly when it has an image |
| MainCardEdit.MainCardEditViewController.DoneAction | TravelLog/MainView/MainCardEditViewController/MainCardEditViewController.swift:84-108 | with a `nil` title no command is sent. Without a selected card, exactly one `appendMainCard` carries the title and the shown image (`nil` when none). With a selected card, `editMainCardTitle`, `editMainCardImage` and `editMainCardDate(now)` are sent for that id, in that order, and no append |
| MainCardEdit.MainCardEditViewController.CancelAction | TravelLog/MainView/MainCardEditViewController/MainCardEditViewController.swift:110-112 | the screen is dismissed and no command is sent |
| MainCardEdit.MainCardEditViewController.PickerDidFinish | TravelLog/MainView/MainCardEditViewController/MainCardEditViewController.swift:120-141 | the add button is shown exactly when no image is shown and nothing was picked |

The two price inputs treat a second decimal point differently:

- `PriceCell.didTextFieldChange` drops the last character whenever the
  comma-free text holds two or more `.`. When the second `.` was typed at the
  end, this undoes that keystroke (`PriceCellComponent.SecondDotIsDropped`).
  When it was typed inside the text, as in "1.2.5", the last digit is dropped
  instead and "1.2." is parsed; the field then changes only if that parses.
- `SubCardsViewModel.updateEditingCardPrice` holds back only text that ends
  in a lone `.`. Any other text, "1.2.3" included, is handed to `Double(_:)`
  and the draft price becomes its result, which is `nil` when the text does
  not parse (`SubCards.DraftPriceExamples`).

## Findings

| source | as written | input that shows it | evidently intended | confidence | as-written member | corrected member |
|---|---|---|---|---|---|---|
| TravelLog/Model/LocationDTO.swift:18-24 | `==` compares `id.hashValue`, a 64-bit hash of a 128-bit UUID, while `hash(into:)` combines the `id` itself | two different UUIDs whose `hashValue`s collide: the locations are `==`, yet their hashes differ, against Hashable's rule that equal values hash equally | `==` compares the ids themselves | low: a collision is rare; not executed | Location.EqualWithoutEqualHash | Location.EqualByIdImpliesEqualHash |

## Left out

- Layout, styling, images on the star buttons (`updateButton`, the image loop in `tapStar`), `configure*` and `reloadData`: presentation only.
- The map and search screens, `MainCardCell`, the `TripLog/MainView/MainViewController.swift` copy and `SearchLocationViewDelegate`: presentation and forwarding.
- `MainCardsViewModel` and `Observable` are not part of this model.
  - The view-model gateway records commands and leaves the list open.
  - One observer run is modelled as one call of `OnListEmission`. Whether `observe` also runs the observer when it registers is not modelled.
  - `viewDidLoad`, which calls `loadData` and then `bind`, is not modelled as a sequence.
- The Core Data store behind `MainDataManager`: an oracle of failures and stored lists by call position stands for it.
- `Double(_:)`, `NumberFormatter` and the rate division are uninterpreted functions on `real`. Floating-point rounding and the formatter's locale are not modelled.
- User defaults: the stored currency code is a constructor parameter. The write of "KRW" back to user defaults is not modelled.
- `SearchLocationViewModel.mapCoordinate` and `openInMap`: MapKit coordinate extraction and opening Maps.
- `addImage` (presenting the photo picker) and the asynchronous image load with its main-queue dispatch in `picker(_:didFinishPicking:)`: the shown image is unchanged by `PickerDidFinish`.
- `dismiss(animated:)`: `DoneAction` runs the completion at once. The `[weak self]` guard is taken to succeed.
- Delegates are weak optionals in the source; the model always records the delegate call as if a delegate is set.
- `Location.Equal`: Swift's `UUID.hashValue` is a per-process hash, so it is a parameter. `LocationDTO`'s `==` matches `hash(into:)` only when that hash does not collide, which `Location.EqualImpliesEqualHash` assumes; `Location.EqualById` is the id-based equality for which no assumption is needed. Nothing else in the model compares locations with `==`: lookups compare ids.
- `SubCardModelDTO()` and `CardCategory`'s cases are not part of this model: the initial draft is a parameter, and a category is a tag.
- `TitleView` is not part of this model: the text its field starts with is a parameter of the edit screen's constructors. `LoadMainCard` takes `titleView.updateText(_:)` to make the field's text exactly the given title.
- Characters: Swift's `String` operations (`suffix`, `removeLast`, `split` on "." and ",", `isEmpty`) work on Characters, which are extended grapheme clusters. A Dafny `string` is a sequence of Unicode scalars, so `SubCards.Suffix`, `PriceCellComponent.Candidate`, `Text.SplitKeepingEmpty` and `Text.StripCommas` work scalar by scalar. The two agree on the digits, `.` and `,` that the decimal pad types; they differ when a combining mark follows one of them. For example, Swift's `removeLast()` on "1.2.3" followed by U+0301 drops the "3" and the mark together, while `Candidate` drops only the mark.
- `UITextField` is not part of this model. Its `text` is taken to read back as the empty text after `nil` is assigned to it (`Foundation.FieldText`), which is what the price fields show when formatting fails.
