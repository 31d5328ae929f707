# Uganda election event tracker — verified model

The page script `uganda_test.py` shows a map of Kampala with election
incidents read from `Uganda_Election_Events.csv`, and lets a user click the
map and submit a new incident, which is appended to that file. This project
models the logic of that script in Dafny:

- **Style resolver** (`styles.dfy`, module `Styles`): the fixed six-entry table
  from event type to `(icon, color)` and its exact-match lookup with the
  grey question-mark default.
- **Marker derivation** (`markers.dfy`, module `Markers`): the two loops over
  the loaded rows (short popup, then detailed popup with the notes fallback)
  with the embassy circle between them, as methods adding layers to a
  `FoliumMap` object; a row lookup of a missing column raises `KeyError`.
- **Event store** (`store.dfy`, module `Store`): reading the file (a missing
  file becomes an empty four-column table) and appending one record, as the
  `EventFile` class whose `Append` extends its `records` field.
- **Click and form gate** (`form.dfy`, module `Form`): the last click, the
  truthiness test that offers the form, and the record a submission writes.
- **One page run** (`app.dfy`, module `App`): read, plot, gate, submit; the
  table shown is the one read at the start, not refreshed after a submit.
- `events.dfy` holds the `Event` record, `wrappers.dfy` Option and Result.

The fixed style table and its default are the constants `Styles.StyleTable`
and `Styles.DefaultStyle` (lines 14-21 and 45), pinned down by
`Styles.ResolveTable` and `Styles.ResolveUnlisted`; the embassy circle is the
constant `Markers.EmbassyCircle`.

The file is an abstract sequence of records: whether its first line is the
header, then its records. Coordinates are `real`, dates are kept as their
text, notes are an `Option` (an empty field reads back as absent).

## Model

| member | source | states |
|---|---|---|
| Styles.KnownTypes | uganda_test.py:89 | the selector's choices are the table's keys, in table order |
| Styles.Lookup | uganda_test.py:45 | exact-match dictionary lookup: a value exactly when some entry has the key, and then that entry's value |
| Styles.Resolve | uganda_test.py:45 | total: a listed type gets the style listed with it, every other string the default style |
| Styles.KeysDistinct | uganda_test.py:14-21 | no two table entries share a key |
| Styles.ResolveKnown | uganda_test.py:14-21 | each of the six types resolves to exactly its own listed pair |
| Styles.ResolveTable | uganda_test.py:14-21 | the six pairs written out, e.g. Riots is glyphicon-fire / orange |
| Styles.ResolveUnlisted | uganda_test.py:69 | the empty string and the case variant "riots" get glyphicon-question-sign / gray |
| Styles.KnownNotDefault | uganda_test.py:14-21 | no listed type resolves to the default style |
| Markers.FirstMissing | uganda_test.py:43-76 | the key a row lookup fails on: none exactly when every needed column exists, else the first missing one in lookup order |
| Markers.NotesText | uganda_test.py:68 | a row's notes are shown as they are; absent notes as "No additional details." |
| Markers.BriefMarker | uganda_test.py:44-52 | the first loop's marker sits at the row's coordinates, with the row's type as tooltip and its resolved style; its popup starts with the type |
| Markers.DetailedMarker | uganda_test.py:67-76 | the second loop's marker has the same place, tooltip and style as the first; its popup ends with the notes or the fallback |
| Markers.Pins | uganda_test.py:43-52 | a loop over the rows adds exactly one marker per row |
| Markers.EventLayers | uganda_test.py:43-76 | the two loops and the fixed embassy circle (lines 55-63, the constant `EmbassyCircle`) add 2n+1 layers for n rows |
| Markers.PinsAt | uganda_test.py:43-76 | the i-th marker of either loop is drawn from the i-th row alone |
| Markers.TwoMarkersPerRow | uganda_test.py:43-76 | exactly two markers per row, at the row's coordinates, tooltip its type, style its resolved style; the circle between the loops |
| Markers.CoincidentEventsKept | uganda_test.py:43-76 | two rows at the same spot keep all four markers, nothing is merged |
| Markers.BriefPopupShape | uganda_test.py:49 | the short popup is the type, " (", the date, ")" |
| Markers.DetailedPopupShape | uganda_test.py:73 | the detailed popup is the type label and type, the date label and date, the notes label and the notes or fallback, in that order |
| Markers.DetailedPopupNotes | uganda_test.py:68-73 | the detailed popup ends with the notes, or "No additional details." when there are none |
| Markers.PlotError | uganda_test.py:43-76 | no KeyError exactly when there are no rows or every column the loops read exists; a reported column is one the table lacks, and only when it has rows |
| Markers.PlottedLayers | uganda_test.py:43-76 | what is drawn before a KeyError stops the script is a prefix of the full layout, and all of it exactly when nothing is raised |
| Markers.PlotErrorByColumns | uganda_test.py:43-76 | a five-column table always plots; a four-column one raises KeyError on notes and a promoted-header one on event_type, each only when it has rows |
| Markers.FoliumMap.constructor | uganda_test.py:28-40 | a new map carries no layers |
| Markers.FoliumMap.AddTo | uganda_test.py:52 | add_to puts the layer after those already there |
| Markers.AddBriefMarkers | uganda_test.py:43-52 | the first loop adds the short-popup marker of every row in order, or raises before adding any |
| Markers.AddDetailedMarkers | uganda_test.py:66-76 | the second loop adds the detailed-popup marker of every row in order, or raises before adding any |
| Markers.PlotEvents | uganda_test.py:42-76 | both loops with the circle between: the map gains exactly the plotted layers and the KeyError is reported |
| Store.Load | uganda_test.py:8-11 | a missing file reads as an empty four-column table; a headed file as its records; a headerless one loses its first record to the header; an empty one fails |
| Store.MissingFileNoMarkers | uganda_test.py:8-11 | a missing file gives no rows and no marker |
| Store.AppendAsWritten | uganda_test.py:94-96 | the append as written: one record after the existing ones, never a header |
| Store.FirstAppendLost | uganda_test.py:96 | on a missing file the submitted record is read back as the header, not as a row |
| Store.SecondAppendBreaksMap | uganda_test.py:96 | a second such append makes the first marker loop raise KeyError on event_type |
| Store.AppendRecord | uganda_test.py:94-96 | one record after the existing ones, old records kept in order; a header only when the file is created |
| Store.ReloadAfterAppend | uganda_test.py:94-97 | after the corrected append to a file that is absent or headed, the next read gives the old rows unchanged, then the new one |
| Store.AppendAgrees | uganda_test.py:96 | on an existing file the append as written and the corrected one leave the same content |
| Store.EventFile.constructor | uganda_test.py:8-9 | the object holds exactly the given file content |
| Store.EventFile.Append | uganda_test.py:94-96 | corrected append (see Findings): records grow by exactly the new record at the end, old ones unchanged; the file exists afterwards; a header is written only when the append creates the file |
| Form.ClickedLatitude | uganda_test.py:82 | None without a click, else the click's latitude |
| Form.FormOffered | uganda_test.py:86 | the form needs both coordinates present; a coordinate of exactly zero suppresses it |
| Form.ClickedLongitude | uganda_test.py:83 | None without a click, else the click's longitude |
| Form.FormGate | uganda_test.py:82-86 | the form is offered exactly for a click whose latitude and longitude are both nonzero |
| Form.NotesField | uganda_test.py:91 | an empty notes box is stored as absent notes, other text as itself (pandas' other coercions left out) |
| Form.SubmittedRecord | uganda_test.py:89-95 | the record carries the chosen known type, the click, the date and the notes; its style is the listed one, never the default |
| App.RunScript | uganda_test.py:8-97 | an empty file or a missing column stops the run with the file untouched; otherwise (and only then) the page is shown: the map holds the plotted layers of the table read at the start, the form is gated by the click, and exactly a pressed submit on an offered form appends one record, through the corrected append |
| App.SubmitThenReload | uganda_test.py:86-97 | after a submission through the corrected append, the next run reads the earlier rows then the new one, whose markers sit at the click with the chosen style and show the notes or the fallback |
| App.RiotsScenario | uganda_test.py:14-21 | one Riots row with empty notes reads as one event with two markers, glyphicon-fire / orange, notes shown as the fallback |

## Findings

| source | as written | input that shows it | evidently intended | confidence | as-written member | corrected member |
|---|---|---|---|---|---|---|
| uganda_test.py:96 | `to_csv(mode="a", header=False)` never writes a header, also when the append creates the file | no event file, one submission, then a page reload: the record is taken as the header and the table has no row; a second submission makes the marker loop raise KeyError on event_type | the message "Event added! Refresh to see updates." promises the record on reload: write the header when the file does not yet exist | high (reasoned from the library's documented header handling; not executed) | Store.AppendAsWritten | Store.AppendRecord |

`Store.FirstAppendLost` and `Store.SecondAppendBreaksMap` exhibit the
as-written behaviour; `Store.ReloadAfterAppend` proves the corrected one,
which `Store.EventFile.Append` and `App.RunScript` use.

## Left out

- Streamlit widgets (title, messages, selectbox, date picker, text area, button) and `st_folium`: the click, the chosen type's position, the date, the notes text and whether the button was pressed are parameters of `App.RunScript`.
- Map construction, tiles, zoom and the Fullscreen control; the embassy circle is kept only as a fixed layer with its coordinates, radius and popup.
- CSV text encoding and pandas type coercion: records are values, dates are their text, and an empty notes field reading back as absent is written out as `Form.NotesField`.
- Files written by other programs: an existing file's header is taken to be the five standard columns; other headers, column orders and short rows are not modelled.
- Store.EventFile.Append / App.RunScript: model the corrected append (`Store.AppendRecord`, a header when the file is created), not line 96's `header=False`; the append as written is `Store.AppendAsWritten`, whose effect on a missing file `Store.FirstAppendLost` and `Store.SecondAppendBreaksMap` show.
- Form.NotesField: only the empty box is modelled as reading back absent; pandas also reads "NA", "null", "None", "NaN", "n/a" and similar texts as absent and numeric texts as numbers, which the model leaves out with the rest of CSV coercion.
- Store.Load: a header promoted from a record is taken to lack every standard column name; a record whose notes text is literally a column name is not modelled.
- Floating point: coordinates are reals; only the "zero is falsy" test is kept, NaN is not modelled.
- HTML escaping and rendering of popups: popups are plain string concatenation.
- I/O failures other than a missing or empty file, and concurrent appends from several sessions: they have no handling in the script.
- Missing or NaN values in the event_type, latitude, longitude or event_date cells of a row are not modelled; only notes may be absent.
