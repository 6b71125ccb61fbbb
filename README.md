# Power-status map of Copperbelt districts, modelled in Dafny

The system shows a map of districts, each coloured by its electrical-power status, and
lets an operator edit a district's status and scheduled outage times. Its logic lives in
`script.js`: the loaded GeoJSON feature collection (`currentData`), the copy-on-write
update `updateDistrictStatus`, the redraw `updateMapDisplay` (styled regions with popups,
one name label per district in a label group), the status form opened by
`openStatusUpdateModal` and submitted by the form's handler, and the `zoomend` handler
that shows the label group only from zoom level 7.

Modules:

- `Wrappers` — `Option`, for properties a feature may lack and arguments a caller may omit.
- `Districts` — features and the dataset, `UpdateDistrictStatus` (a pure function over
  values, so the result never aliases the input), the first-match lookup `FindDistrict`,
  and the lemmas about updates: isolation, the no-match case, last write wins,
  idempotence, commutation of updates to different districts.
- `Rendering` — the style colour, the popup placeholders, and the regions and labels a
  dataset is drawn as; lemmas on what a redraw after an update shows.
- `MapPage` — class `Page` holding the page's global state, with one method per event
  handler. Its invariant `Valid` says the map always shows exactly the current dataset:
  one region and one label per feature, and nothing left over from an earlier draw.

The model follows script.js: statuses are free strings (the colour rule compares only
with `'outage'` and `'powered'`); opening the form or submitting before the document has
loaded throws; opening the form for an unknown district leaves the status and time fields
as they were (from the previous edit, or the blank form's defaults).

## Model

| member | source | states |
|---|---|---|
| `Districts.UpdateDistrictStatus` | script.js:84-99 | every feature named exactly `districtName` gets the new status and times (an omitted time stored as `''`), with no validation; every other feature is unchanged; count, order, names, shapes, other properties and collection members are preserved |
| `Districts.FindDistrict` | script.js:151 | None exactly when no feature has the name; otherwise the first feature with that name |
| `Districts.FindDistrictByName` | script.js:151 | the lookup depends only on the names and on the features carrying the looked-up name |
| `Districts.UpdateIsolation` | script.js:89-96 | updating one district leaves what a lookup of any other name finds unchanged |
| `Districts.UpdateNoMatch` | script.js:89-98 | an update naming no district returns a dataset equal to the input |
| `Districts.UpdateLastWins` | script.js:89-93 | the fields are overwritten unconditionally: two updates of one district equal the second alone |
| `Districts.UpdateIdempotent` | script.js:89-98 | applying the same update twice equals applying it once |
| `Districts.UpdatesCommute` | script.js:89-96 | updates to two different districts can be applied in either order |
| `Districts.UpdateThenFind` | script.js:89-93 | after updating an existing district, the lookup finds its first feature carrying exactly the submitted values |
| `Rendering.StyleColor` | script.js:111-116 | red exactly for status `'outage'`, green exactly for `'powered'`, gray for every other or missing status |
| `Rendering.OrElse` | script.js:120-124 | JavaScript `||` on a string property: the value when present and non-empty, else the placeholder |
| `Rendering.PopupOf` | script.js:119-126 | the popup shows the name, the population or `'N/A'` (also for 0), the status or `'Unknown'`, the times or `'N/A'`, and edits that district |
| `Rendering.RegionsOf` | script.js:110-117 | one region per feature, in order, coloured by its status and carrying its popup and shape |
| `Rendering.LabelsOf` | script.js:128-138 | one label per feature, in order, with the district name, anchored on its shape |
| `Rendering.LabelsSurviveUpdate` | script.js:89-96 | a status update leaves the labels of the redrawn map identical |
| `Rendering.RedrawAfterUpdate` | script.js:70-74 | after an update and redraw, the edited district's regions show the new colour, status and times, and all other regions are drawn as before |
| `MapPage.Prefill` | script.js:151-156 | a found district fills status with `Status || 'other'` and times with `StartTime || ''`, `EndTime || ''`; no district found leaves the form as it is |
| `MapPage.SubmitThenReopen` | script.js:151-156 | reopening the form after a submit shows the submitted status (or `'other'` if it was empty) and times |
| `MapPage.Page.constructor` | script.js:2-14 | nothing loaded or drawn, no labels, the label group on the map, no modal yet |
| `MapPage.Page.UpdateMapDisplay` | script.js:102-141 | afterwards the map holds exactly the regions and labels of the given dataset, none from the previous draw |
| `MapPage.Page.Load` | script.js:164-170 | the document becomes the current dataset and is drawn |
| `MapPage.Page.OpenStatusUpdateModal` | script.js:144-159 | the modal is built on first use, the district field is written, the form is prefilled from the first matching feature and shown; before loading it throws and stays hidden |
| `MapPage.Page.EnterValues` | script.js:36-47 | the operator's choice replaces the status and the two times; the district field is read-only |
| `MapPage.Page.Cancel` | script.js:58-60 | the modal is hidden and nothing else changes |
| `MapPage.Page.Submit` | script.js:63-78 | the current dataset becomes the update of the form's values, the map is redrawn from it and the modal hidden; before loading it throws and nothing changes |
| `MapPage.Page.OnZoomEnd` | script.js:174-180 | the label group is visible exactly when the zoom level is at least 7; regions and labels are untouched |

## Left out

- Map and tile-layer setup, Leaflet layer objects and their `addTo`/`removeLayer` internals: the map is modelled as the list of drawn regions, the list of labels and a flag for the label group.
- The position of each label (`getBounds().getCenter()`): floating-point geometry computed by Leaflet; a label records the shape it is anchored on.
- The `fetch` of the GeoJSON file and its promise chain: asynchronous I/O; only the success handler (`Load`) is modelled, and the failure handler only logs.
- The zoom level itself comes from Leaflet and is a parameter of `OnZoomEnd`.
- Modal markup, inline styles and the legend: user interface without logic.
- The HTML text of popups and labels (including how a district name is quoted inside the button's `onclick`): only which value or placeholder each popup field shows is modelled.
- The `JSON.parse(JSON.stringify(...))` deep copy: Dafny values cannot alias, so the copy is implicit and the input dataset is never changed.
- The browser's sanitising of form values (a `<select>` assigned a value that is not one of its options, or a date-time input assigned an invalid date, reads back as `''`): the form fields hold exactly the strings assigned.
- The document is assumed to be a feature collection whose every feature has a properties object with a string `NAME_2` and a drawable polygonal geometry, and whose other members are strings; the geometry is kept as an uninterpreted value. Outside that domain the script behaves differently and the model does not cover it: a feature with `properties: null` makes the update and the style callback throw, a feature without geometry is skipped by the map layer (no region, no label) yet still seen by the update and the lookup, and a numeric `NAME_2` never matches the name passed by the popup button.
- `PopEst` is modelled as an integer; a non-integer or `NaN` estimate is not.
