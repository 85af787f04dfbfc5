# Lost-item map: a verified model of its state and search logic

The application is a small browser board. Users pin "lost item" reports on a map. The reports are kept in browser storage, and a text query and a category chooser filter which reports are drawn. This project models these parts of it in Dafny:

- **Records** (`types.dfy`, module `Types`). These are the item record with its closed category and status unions, and the report without its identifier. The `[lng, lat]` pair the map reports is swapped into the stored `{lat, lng}` location.
- **Search panel** (`search.dfy`, module `Search`). The `matchesSearch`/`matchesCategory` predicate is combined into a pure `Filter` over the item list. `String.prototype.includes` is modelled as `Includes`. `toLowerCase` is left uninterpreted: it is a parameter `lower`. The panel's `searchTerm`/`selectedCategory` state is the class `SearchPanel`; each of its two handlers returns the one list it reports through `onSearch`.
- **Report form** (`form.dfy`, module `Form`). The class `ReportForm` holds the `formData` draft and its four field setters. `HandleSubmit` builds the record from the draft and the chosen location.
- **Map component** (`map.dfy`, module `MapView`). The class `LostItemMap` holds these fields:
  - `lostItems`, `displayedItems`, `isAddingItem`, `selectedLocation`;
  - the transient marker slot, `tempMarker`;
  - the browser storage, a `map<string, string>`;
  - the mounted form.

  The `Valid()` invariant says four things:
  - storage under `"lost-items"` always holds the serialisation of the whole list;
  - the shown list is always an order-preserving subsequence of the whole list;
  - the `tempMarker` slot holds exactly the chosen location;
  - the form is mounted exactly in adding mode.

  Each handler is a method. Each one's contract says the whole new state in terms of the old one. The two effects that fire when the list changes are the method `ItemsChanged`. It resets the shown list to the whole list, dropping any active filter, and writes the list to storage.
- **Scenarios** (`scenarios.dfy`, module `Scenarios`). These are worked examples: the case-insensitive "bag" query, and the toggle / click / click / submit, cancel and idle-click flows. They are written as client code against the contracts above.

Coordinates are `real` values. They are only copied or swapped, never computed with. `JSON.stringify` and `JSON.parse` are the component's `serialize` field and a `parse` parameter. `parse` returns `None` where `JSON.parse` would throw. `Math.random` identifiers and `new Date().toISOString()` timestamps are inputs to the handlers.

Four behaviours of the code worth knowing:
- **Toggle button.** The header button (lost-item-map.tsx:151) only flips `isAddingItem`. Turning adding mode off this way leaves the chosen location and the `tempMarker` state in place; cancel and submit clear them. `ToggleAdding` states exactly that.
- **Unreadable saved data.** The initialiser (lost-item-map.tsx:26) does not catch an exception from `JSON.parse`, so saved text that does not parse stops the component rather than giving an empty list. `InitialItems` returns `None` for that case.
- **Empty saved string.** An empty saved string counts as "nothing saved", because `saved ? … : []` tests truthiness.
- **Identifiers.** The code does not make identifiers unique, and the model claims no uniqueness.

## Model

| member | source | states |
|---|---|---|
| Types.ParseCategory | week4/lost-item-map/src/types/lost-item.ts:9 | A string is read as a category only if it is exactly that category's label; every other string is rejected |
| Types.CategoryLabelRoundTrip | week4/lost-item-map/src/types/lost-item.ts:9 | Reading back a category's label gives that category |
| Types.CategoryOptionsComplete | week4/lost-item-map/src/components/lost-item-form.tsx:77-80 | The form's category chooser lists each of the four categories exactly once, and every category is among them |
| Types.LocationRoundTrip | week4/lost-item-map/src/components/lost-item-form.tsx:26-29 | A clicked `[lng, lat]` is stored with lat = second and lng = first component; drawing a marker for that location gives back the clicked pair, and conversely |
| Search.FilterOptionsComplete | week4/lost-item-map/src/components/lost-item-search.tsx:55-59 | The search chooser offers the sentinel first and each category once; each category option's label reads back to that category |
| Search.IncludesIffOccurs | week4/lost-item-map/src/components/lost-item-search.tsx:18-19 | The left-to-right `includes` scan succeeds exactly when the query occurs at some index of the text |
| Search.IncludesEmpty | week4/lost-item-map/src/components/lost-item-search.tsx:18-19 | Every text includes the empty query |
| Search.IncludesOnlyPresentChars | week4/lost-item-map/src/components/lost-item-search.tsx:18-19 | A found query uses only characters that occur in the searched text |
| Search.Filter | week4/lost-item-map/src/components/lost-item-search.tsx:17-22 | The result is no longer than the input, and an item is in it exactly when it is in the input and (lowered title or lowered description includes the lowered query) and (the category is the sentinel or equals the item's) |
| Search.FilterIsSubsequence | week4/lost-item-map/src/components/lost-item-search.tsx:17-22 | The filtered list is an order-preserving subsequence of the input list |
| Search.FilterMultiplicity | week4/lost-item-map/src/components/lost-item-search.tsx:17-22 | A matching item occurs in the result as often as in the input; a non-matching item not at all |
| Search.FilterIdempotent | week4/lost-item-map/src/components/lost-item-search.tsx:17-22 | Filtering the filtered list again with the same query and category returns it unchanged |
| Search.FilterKeepsAll | week4/lost-item-map/src/components/lost-item-search.tsx:17-22 | When every item matches, the filter returns the input list itself |
| Search.InitialCriteriaKeepAll | week4/lost-item-map/src/components/lost-item-search.tsx:12-22 | The initial criteria (empty query, sentinel) keep every item in order, given that lowering the empty string gives the empty string |
| Search.SentinelIgnoresCategory | week4/lost-item-map/src/components/lost-item-search.tsx:20 | With the sentinel, an item is kept exactly when its text matches, whatever its category; choosing a category yields a subsequence of the sentinel's result |
| Search.SearchPanel.constructor | week4/lost-item-map/src/components/lost-item-search.tsx:12-13 | The panel starts with the empty query and the sentinel category |
| Search.SearchPanel.HandleSearch | week4/lost-item-map/src/components/lost-item-search.tsx:15-24 | Stores the new query, keeps the category, and reports the input filtered by the new query and the current category |
| Search.SearchPanel.HandleCategoryChange | week4/lost-item-map/src/components/lost-item-search.tsx:26-35 | Stores the new category, keeps the query, and reports the input filtered by the current query and the new category |
| Form.ReportForm.constructor | week4/lost-item-map/src/components/lost-item-form.tsx:13-18 | A new draft has empty title, description and contact info and the category 'その他' |
| Form.ReportForm.SetTitle | week4/lost-item-map/src/components/lost-item-form.tsx:56 | Changes the draft's title and no other field |
| Form.ReportForm.SetDescription | week4/lost-item-map/src/components/lost-item-form.tsx:66 | Changes the draft's description and no other field |
| Form.ReportForm.SetCategory | week4/lost-item-map/src/components/lost-item-form.tsx:75 | Changes the draft's category and no other field |
| Form.ReportForm.SetContactInfo | week4/lost-item-map/src/components/lost-item-form.tsx:91 | Changes the draft's contact info and no other field |
| Form.ReportForm.HandleSubmit | week4/lost-item-map/src/components/lost-item-form.tsx:20-33 | Reports a record exactly when a location is chosen (exactly when the submit button is enabled); the record carries the draft's title, description, category and contact info unchanged, the supplied timestamp, status '未返却', and a location whose marker is the chosen `[lng, lat]`; the required fields are non-empty |
| MapView.MarkerPositions | week4/lost-item-map/src/components/lost-item-map.tsx:92-110 | One marker per shown item, in order, each at the item's `[lng, lat]` |
| MapView.NothingSavedStartsEmpty | week4/lost-item-map/src/components/lost-item-map.tsx:23-27 | With nothing (or the empty string) saved under the key, the initial list is empty |
| MapView.ReloadRestores | week4/lost-item-map/src/components/lost-item-map.tsx:25-26 | A list written under the key is read back unchanged at the next start, whenever the parser reads back the text the serialiser wrote for that list |
| MapView.StoredListReloads | week4/lost-item-map/src/components/lost-item-map.tsx:39-41 | The storage of a valid component reloads to exactly its current list, whenever the parser reads back the text written for that list |
| MapView.ShownNeverExceedsAll | week4/lost-item-map/src/components/lost-item-map.tsx:159-162 | The shown list never holds more items than the whole list, and holds only items of it |
| MapView.LostItemMap.constructor | week4/lost-item-map/src/components/lost-item-map.tsx:23-41 | Mounting reads the list from storage, shows the whole list, writes it back, and starts idle with no selection, no transient marker and a fresh search panel |
| MapView.LostItemMap.ItemsChanged | week4/lost-item-map/src/components/lost-item-map.tsx:34-41 | After a list change the shown list is the whole list (any filter dropped) and storage under the key holds the serialised whole list; nothing else changes |
| MapView.LostItemMap.ToggleAdding | week4/lost-item-map/src/components/lost-item-map.tsx:151 | Flips adding mode; turning it on mounts a form with the initial draft; the selection, the transient marker, the lists and storage are untouched |
| MapView.LostItemMap.HandleMapClick | week4/lost-item-map/src/components/lost-item-map.tsx:55-71 | Outside adding mode nothing changes; in adding mode the clicked `[lng, lat]` becomes the selection and the single transient marker's position |
| MapView.LostItemMap.HandleAddItem | week4/lost-item-map/src/components/lost-item-map.tsx:113-132 | Without a selection nothing changes; otherwise exactly one item is appended at the end, earlier items unchanged, with the supplied id, the report's other fields and the location built from the selection; the shown list becomes the whole list, its last marker at the clicked point; storage is rewritten; adding mode, selection and transient marker are cleared |
| MapView.LostItemMap.HandleCancel | week4/lost-item-map/src/components/lost-item-map.tsx:134-141 | Ends adding mode and clears the selection and the transient marker; the lists and storage are untouched |
| MapView.LostItemMap.SubmitReport | week4/lost-item-map/src/components/lost-item-map.tsx:165-172 | Submitting the form appends one item carrying the draft's fields, status '未返却', the supplied id and timestamp, at the location chosen at submission time; without a selection nothing changes |
| MapView.LostItemMap.HandleSearch | week4/lost-item-map/src/components/lost-item-map.tsx:159-162 | The shown list becomes the whole list filtered by the new query and the current category; the whole list and storage are untouched |
| MapView.LostItemMap.HandleCategoryChange | week4/lost-item-map/src/components/lost-item-map.tsx:159-162 | The shown list becomes the whole list filtered by the current query and the new category; the whole list and storage are untouched |
| Scenarios.BagQueryScenario | week4/lost-item-map/src/components/lost-item-search.tsx:17-22 | Of "Red Umbrella" and "Blue Bag", the query "bag" keeps only "Blue Bag" under an ASCII case fold |

## Left out

- Map construction, the style URL, `center`/`zoom` and teardown (lost-item-map.tsx:43-79): foreign map-engine calls. Only the transient marker's position is modelled.
- Popup HTML and the `toLocaleString` date display (lost-item-map.tsx:93-101), and the `toFixed(6)` location text (lost-item-form.tsx:45): presentation only.
- The DOM loop that removes every marker element, and adding markers to the map (lost-item-map.tsx:86-109): DOM work. Drawn markers are represented as `MarkerPositions` of the shown list. That loop also removes the transient marker's element whenever the shown list changes; the model does not capture this, so `tempMarker` stays set after a search in adding mode although no transient marker is drawn.
- React effect scheduling and re-render timing, including the effect dependency list at lost-item-map.tsx:79. Each handler is modelled as one event, with the list effects applied right after the list changes.
- The server-rendering branch `typeof window === 'undefined'` (lost-item-map.tsx:24): the model always runs in the browser.
- `localStorage`, `JSON.stringify` and `JSON.parse`: browser I/O. They are an abstract map, an abstract serialiser and an abstract parser.
- MapView.ReloadRestores: the reload round trip is proved for a list whose serialised text is non-empty and parses back to that list; it is not proved that JSON does this, because the serialiser and the parser are abstract.
- MapView.StoredListReloads: holds under the same per-list read-back condition as `ReloadRestores`, for the same reason.
- MapView.LostItemMap.constructor: a saved text on which `JSON.parse` throws (lost-item-map.tsx:26) is excluded by the precondition that `InitialItems` succeeds; the model does not describe the component failing to mount.
- `Math.random` identifiers and `new Date()` timestamps: nondeterministic, so they are inputs. No uniqueness of identifiers is claimed, because the code does not ensure it.
- Floating-point coordinates: opaque `real` values that are only copied or swapped.
- Unicode semantics of `toLowerCase`: an uninterpreted function parameter. The scenarios use an ASCII fold.
- Browser validation of the `required` inputs (lost-item-form.tsx:53, :63, :88): a precondition of `HandleSubmit` that title, description and contact info are non-empty.
- The explanatory banners shown while no location is chosen (lost-item-form.tsx:37-47, lost-item-map.tsx:175-179): presentation only.
- The page entrance animation (main.js) and the page layout (page.tsx): unrelated to the map logic. They are not part of this model.
