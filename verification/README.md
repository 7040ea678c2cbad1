# Facility filter and marker synchronisation, in Dafny

The facility directory has two browser front-ends over the same facility list:
an editable Google Maps page (`public/static/app.js`) and a read-only Leaflet
page (`public/static/view.js`). Each page keeps three pieces of module-level state:
- the fetched facility list (`allFacilities`);
- the subset the search box and category selector let through (`filteredFacilities`);
- the map markers for that subset. The editable page also keeps one info window per marker.

This project models that state and the operations that change it. These are
the filter, the marker rebuild, the reload, the viewport decision, the focus
lookup, the list cards and the category colours. It proves what each page
promises about them.

Layout:

- `wrappers.dfy` (`Wrappers`): `Option`, used for JSON `null` fields and for search results.
- `text.dfy` (`Text`): ASCII `Lower` (the model of `toLowerCase`) and `Includes` (`String.prototype.includes`). `Includes` is proved equal to "occurs at some index".
- `sequences.dfy` (`Sequences`):
  - `Keep` models `Array.prototype.filter` and `FirstIndex` models `Array.prototype.find`.
  - Generic facts about them: the result is a subsequence, the counts are right, the result is unique, filtering is idempotent, and appending one element extends the result in a known way.
- `facilities.dfy` (`Facilities`): the facility record, JavaScript truthiness of a coordinate, and the placeability filter `WithCoords`.
- `search.dfy` (`Search`): the search/category predicate that both pages share line for line, and the filter built on it, with its properties.
- `viewport.dfy` (`Viewports`): positions, viewport actions (unchanged, centre at a zoom, fit a set of points) and the viewport state.
- `editable_map.dfy` (`EditableMap`): app.js.
  - Markers and info windows are objects whose attached/open flags the page changes in place.
  - `MapPage` holds the module-level lists as `seq` fields.
- `readonly_map.dfy` (`ReadOnlyMap`): view.js.
  - Leaflet markers are objects.
  - `MapView` holds the lists and the single popup that Leaflet shows.

Each page's module follows its own file. The two pages differ in four ways:
- Only app.js tests the coordinates for truthiness before adding a marker.
- view.js `loadFacilities` appends markers without removing the old ones.
- The single-facility zoom is 15 on the editable page and 14 on the read-only page.
- app.js focuses by coordinates; view.js looks the facility up by id in the full list, then finds a marker by coordinates.

Where the code and a design-level reading of the system differ, the model follows the code:
- The search term is lowercased but not trimmed. A search made only of spaces filters instead of matching everything.
- view.js adds a marker for every shown facility, including facilities without coordinates. The model places such a marker with each missing coordinate read as 0.
- In view.js, `focusOnFacility` for such a facility opens no popup: a marker position holds numbers, and a number is never `=== null`.
- Focusing is not a silent no-op. app.js `focusOnFacility` (app.js:390-391) recentres and zooms before it looks for a marker, so the view moves even when no marker matches. view.js (view.js:195-197) looks the id up in the full list, so it moves the view to a facility that the current filter hides.
- view.js `loadFacilities` never removes markers. The marker list after a reload is the old markers followed by the new ones. The only caller is `initMap`, which starts from an empty list, so the markers then mirror the fetched list.

## Model

| member | source | states |
|---|---|---|
| `Sequences.Keep` | public/static/app.js:50 | `Array.prototype.filter`: the result is no longer than the input and every element passes the predicate (order and multiplicity are stated for the facility filter by `Search.FilterSpec`) |
| `Sequences.FirstIndex` | public/static/app.js:394-395 | `Array.prototype.find`: the index found holds an element passing the predicate and no earlier element passes; none means no element passes |
| `Text.IncludesIff` | public/static/app.js:52-54 | `includes` as a left-to-right scan is true exactly when the term occurs at some index of the text |
| `Search.ReadCriteria` | public/static/app.js:47-48 | the term is the lowercased input value, or empty when the input is missing or empty; the category is the selected value, or empty when missing |
| `Search.PassesIff` | public/static/app.js:51-58 | a facility passes iff both hold: (1) the term is empty or occurs in the lowercase form of its name, or of its non-empty description or address; (2) no category is selected or the selected one equals its category exactly |
| `Search.FilterSpec` | public/static/app.js:50-59 | the filtered list is a subsequence of the full list, every element passes, and every passing facility occurs in it exactly as often as in the full list |
| `Search.FilterMember` | public/static/view.js:50-59 | a facility is in the filtered list iff it is in the full list and passes |
| `Search.FilterCharacterized` | public/static/app.js:50-59 | any order-preserving subsequence that holds only passing facilities, each as often as the full list, is the filtered list |
| `Search.FilterIdempotent` | public/static/app.js:50-59 | filtering the filtered list again with the same criteria returns it unchanged |
| `Search.NoCriteriaKeepsAll` | public/static/app.js:51-56 | with an empty term and no category every facility is kept, in order |
| `Search.UnknownCategoryShowsNothing` | public/static/app.js:56 | a selected category that no facility has leaves an empty filtered list |
| `Facilities.WithCoords` | public/static/app.js:84 | every facility kept has truthy (present, non-zero) latitude and longitude |
| `EditableMap.CenterDecision` | public/static/app.js:270-286 | no facilities: viewport unchanged; exactly one: centre on its position at zoom 15; more: fit the bounds over every position, in order, with the default padding |
| `EditableMap.RenderList` | public/static/app.js:351-386 | empty list: the "no facilities" message; otherwise one card per facility in order, whose click target is the facility's position iff its coordinates are truthy |
| `EditableMap.FindMarkerAt` | public/static/app.js:394-396 | returns the first marker whose facility has exactly the given latitude and longitude, or none when no marker has them |
| `EditableMap.CardFocusFindsMarker` | public/static/app.js:359-398 | the click target of any card with coordinates is found among the markers of the shown placeable facilities |
| `EditableMap.SharedCoordinatesFocusEarlier` | public/static/app.js:394-395 | when two markers have identical coordinates, focusing that position opens the earlier one, never the later |
| `EditableMap.CastleAndCafe` | public/static/app.js:46-66 | for a castle with coordinates and a cafe without: searching "cas" keeps only the castle, only the castle is placeable, and the list has two cards, the cafe's with no focus target |
| `EditableMap.DetachAll` | public/static/app.js:71 | every given marker is detached from the map |
| `EditableMap.CloseAll` | public/static/app.js:72 | every given info window is closed |
| `EditableMap.MapPage.constructor` | public/static/app.js:1-19 | empty lists, no rendered list, view at Kumamoto City zoom 12, invariant established |
| `EditableMap.MapPage.AddMarker` | public/static/app.js:289-319 | pushes a new attached marker for the facility and a new closed info window for it together; nothing else changes |
| `EditableMap.MapPage.ClearMarkers` | public/static/app.js:71-74 | every old marker is detached and every old info window closed; both lists become empty |
| `EditableMap.MapPage.AddPlaceableMarkers` | public/static/app.js:77-81 | starting from empty lists, the markers' facilities are exactly the facilities with truthy coordinates, in order, all new objects, every new info window closed |
| `EditableMap.MapPage.UpdateMarkers` | public/static/app.js:69-88 | old markers detached, old windows closed, the new markers are fresh and mirror the placeable filtered facilities in order, and every new info window is closed; viewport per the decision over those facilities |
| `EditableMap.MapPage.ApplyFilters` | public/static/app.js:46-66 | filtered list = filter of the full list by the inputs; full list unchanged; markers rebuilt as in UpdateMarkers with every window closed; list re-rendered; invariant kept |
| `EditableMap.MapPage.LoadFacilities` | public/static/app.js:233-267 | success: full and filtered lists both become the fetched list, whatever the inputs hold; markers rebuilt from it with every window closed; list and view updated. Failure: every field and every window unchanged |
| `EditableMap.MapPage.OpenOnly` | public/static/app.js:308-312 | afterwards exactly the chosen info window is open |
| `EditableMap.MapPage.FocusOnFacility` | public/static/app.js:389-409 | always recentres on the given position at zoom 15. If a marker's facility has exactly those coordinates, only the first such marker's window is open; otherwise no window changes |
| `ReadOnlyMap.CenterDecision` | public/static/view.js:108-119 | no facilities: unchanged; one: setView on its position at zoom 14; more: fitBounds over every position in order with padding 50 |
| `ReadOnlyMap.CategoryColor` | public/static/view.js:180-191 | the table's class for the seven listed categories and the "その他" class for any other input; the result is always one of the table's values |
| `ReadOnlyMap.CategoryColorRange` | public/static/view.js:181-190 | the result is always one of six class strings; "宿泊" and "公園" share one |
| `ReadOnlyMap.RenderList` | public/static/view.js:149-177 | empty list: the "no facilities" message; otherwise one card per facility in order, carrying its id and, iff it has a category, that category's colour |
| `ReadOnlyMap.FindFacility` | public/static/view.js:195 | returns the first facility with the id, or none when no facility has it |
| `ReadOnlyMap.FindMarkerFor` | public/static/view.js:200-203 | returns the first marker position equal to the facility's latitude and longitude, or none |
| `ReadOnlyMap.UnlocatedFocusFindsNoMarker` | public/static/view.js:200-203 | a facility lacking a coordinate never matches a marker |
| `ReadOnlyMap.LocatedFacilityFindsMarker` | public/static/view.js:197-207 | with one marker per shown facility, a shown facility with both coordinates finds a marker at its own position, no later than its own |
| `ReadOnlyMap.CardFocusFindsFacility` | public/static/view.js:162-196 | the id of every card of the filtered list is found in the full list |
| `ReadOnlyMap.RemoveAll` | public/static/view.js:71 | every given marker is removed from the map |
| `ReadOnlyMap.MapView.constructor` | public/static/view.js:1-11 | empty lists, no popup, no rendered list, view at Tokyo zoom 12 |
| `ReadOnlyMap.MapView.AddMarker` | public/static/view.js:86-105 | appends one new marker on the map, at the facility's position, each missing coordinate read as 0; nothing else changes |
| `ReadOnlyMap.MapView.AddMarkers` | public/static/view.js:75-77 | appends one new marker per facility, in order, after the existing ones |
| `ReadOnlyMap.MapView.UpdateMarkers` | public/static/view.js:69-83 | old markers removed, popup closed, new markers mirror the filtered list in facilities and positions (one per facility, no placeability test); viewport per the decision over the filtered list |
| `ReadOnlyMap.MapView.ApplyFilters` | public/static/view.js:46-66 | filtered list = filter of the full list by the inputs; markers rebuilt, one per filtered facility at that facility's position; popup closed; list re-rendered; every marker stays at its facility's position |
| `ReadOnlyMap.MapView.LoadFacilities` | public/static/view.js:122-146 | success: both lists become the fetched list; the markers become the old markers, still on the map, followed by one new marker per fetched facility at that facility's position; list and view updated; every marker stays at its facility's position. Failure: nothing changes |
| `ReadOnlyMap.LoadThenFocus` | public/static/view.js:122-146 | after `initMap`, a successful load of one facility with coordinates and a click on its card, the view is at that facility at zoom 16 and the popup shown is that facility's marker, at its position |
| `ReadOnlyMap.MapView.FocusOnFacility` | public/static/view.js:194-209 | unknown id in the full list: nothing changes. Otherwise setView on the first facility with that id at zoom 16, and show the popup of the first marker at exactly its coordinates, if any |

## Left out

- Map library objects are not modelled. This covers Google Maps and Leaflet construction, `setMap`, `removeLayer`, `LatLngBounds`, and the bounds and zoom that `fitBounds` computes. They are foreign calls. A marker is modelled as its facility, an attached flag and, on the read-only page, its position, and a fit is recorded as the list of points.
- HTML is not modelled: popup content (`createPopupContent`), card markup and tile layers are presentation. Cards keep only their id, their click target (app.js) and their badge colour (view.js).
- HTTP calls are not modelled. The list request becomes an input: `Some(list)` for a successful response and `None` for `success: false` or a thrown request, which the code handles the same way. `editFacility`, `deleteFacility`, the submit handler and image upload are network round trips. After a successful write they only call `loadFacilities`, which is modelled.
- Form and modal handling is not modelled: `showFacilityForm`, `closeModal`, `removeImage`, the FileReader preview and `currentFacilityMarker`. It is DOM plumbing outside the marker lists.
- `geocodeAddress` is not modelled. It is an asynchronous call to an external geocoder.
- Timers and dialogs are not modelled: the bounce animation and its 2-second `setTimeout`, `confirm`, `alert` and console logging.
- Event wiring is not modelled: `setupSearchAndFilter` and the `DOMContentLoaded` hook. The modelled operations are the handlers they install.
- Leaflet's own behaviour is modelled only in part:
  - Modelled: the map shows one popup at a time, and removing a marker closes its popup.
  - Not modelled: a user clicking a Leaflet marker opens its popup through Leaflet's own handler, which is not in the source.
- `Text.Lower` lowers ASCII letters only. JavaScript's full Unicode case mapping is not modelled, and Japanese text has no case.
- Coordinates are exact reals. There is no NaN and no floating-point rounding.
- A card's click passes its coordinates through the decimal text of an `onclick` attribute. The model assumes they come back unchanged.
- A JSON `null` category and an empty category are both the empty string. The filter, the badge test and the colour lookup treat them the same way.
- `ReadOnlyMap.CategoryColor` treats the colour table as a plain dictionary. Keys inherited from `Object.prototype`, such as `constructor`, are not modelled.
- `EditableMap.CenterDecision` requires both coordinates of every facility. Every caller passes only facilities with truthy coordinates, and what Google Maps does with a `null` position is not modelled.
- `ReadOnlyMap.MapView.AddMarker` models a `null` latitude or longitude as 0 in the marker's position. What Leaflet does with `L.marker([null, lng])` is not modelled; it may throw, and that would abort `updateMarkers` or `loadFacilities` partway.
- `ReadOnlyMap.CenterDecision` reads a `null` coordinate as 0 in the point it passes to `setView` or `fitBounds` (view.js:112, 115). What Leaflet does with `[null, lng]` there is not modelled.
- `ReadOnlyMap.MapView.FocusOnFacility` reads a `null` coordinate as 0 in the point it passes to `setView` (view.js:197). What Leaflet does with `[null, lng]` there is not modelled.
