/**
 * One run of the page script: read the event file, plot it, read the last
 * click, offer the form and, on submit, append the new record.
 */
module App {
  import opened Wrappers
  import opened Events
  import opened Styles
  import opened Markers
  import opened Store
  import opened Form

  /** An exception that ends the run: the file had no line, or a row lacked a column. */
  datatype Failure = EmptyFile | KeyError(column: Column)

  /**
   * How a run ends: stopped by an exception, or with the page shown; then
   * `view` is the table read at the start, `layers` what the map draws and
   * `submitted` the record appended, if any.
   */
  datatype Run =
    | Crashed(failure: Failure)
    | Shown(view: Table, layers: seq<Layer>, formOffered: bool, submitted: Option<Event>)

  method RunScript(disk: EventFile, lastClicked: Option<Click>, form: FormInput, pressed: bool)
    returns (run: Run)
    requires disk.Valid()
    requires form.choice < |KnownTypes()|
    modifies disk
    ensures disk.Valid()
    ensures Load(old(disk.Snapshot())).Err? ==> run == Crashed(EmptyFile)
    ensures Load(old(disk.Snapshot())).Ok? && PlotError(Load(old(disk.Snapshot())).value).Some? ==>
      run == Crashed(KeyError(PlotError(Load(old(disk.Snapshot())).value).value))
    ensures run.Shown? <==>
      Load(old(disk.Snapshot())).Ok? && PlotError(Load(old(disk.Snapshot())).value) == None
    ensures run.Crashed? ==> disk.Snapshot() == old(disk.Snapshot())
    ensures run.Shown? ==>
      Load(old(disk.Snapshot())) == Ok(run.view) && PlotError(run.view) == None &&
      run.layers == EventLayers(run.view.rows) &&
      run.formOffered == FormOffered(ClickedLatitude(lastClicked), ClickedLongitude(lastClicked)) &&
      (run.submitted.Some? <==> run.formOffered && pressed)
    ensures run.Shown? && run.submitted.None? ==> disk.Snapshot() == old(disk.Snapshot())
    ensures run.Shown? && run.submitted.Some? ==>
      run.submitted.value == SubmittedRecord(lastClicked.value.lat, lastClicked.value.lng, form) &&
      disk.records == old(disk.records) + [run.submitted.value] &&
      disk.Snapshot() == Some(AppendRecord(old(disk.Snapshot()), run.submitted.value))
  {
    var loaded := Load(disk.Snapshot());
    if loaded.Err? {
      return Crashed(EmptyFile);
    }
    var view := loaded.value;
    var m := new FoliumMap();
    var keyError := PlotEvents(m, view);
    if keyError.Some? {
      return Crashed(KeyError(keyError.value));
    }
    PlotErrorByColumns(view);
    var lat := ClickedLatitude(lastClicked);
    var lng := ClickedLongitude(lastClicked);
    var offered := FormOffered(lat, lng);
    var submitted := None;
    if offered && pressed {
      var e := SubmittedRecord(lat.value, lng.value, form);
      disk.Append(e);
      submitted := Some(e);
    }
    run := Shown(view, m.layers, offered, submitted);
  }

  /**
   * After a submission through the corrected append, to a file that is
   * absent or starts with the header, the next run
   * reads every earlier row unchanged, then the new one, whose two markers
   * sit at the click with the chosen type's own style and whose detailed
   * popup ends with the notes or, for an empty box, the fallback text.
   */
  lemma SubmitThenReload(file: Option<CsvFile>, click: Click, form: FormInput)
    requires WellFormed(file)
    requires form.choice < |KnownTypes()|
    ensures var e := SubmittedRecord(click.lat, click.lng, form);
      var t := Load(Some(AppendRecord(file, e)));
      var n := |Records(file)|;
      t.Ok? && t.value.rows == Records(file) + [e] && PlotError(t.value) == None &&
      var layers := EventLayers(t.value.rows);
      layers[n] == Pin(BriefMarker(e)) && layers[2 * n + 2] == Pin(DetailedMarker(e)) &&
      BriefMarker(e).lat == click.lat && BriefMarker(e).lng == click.lng &&
      BriefMarker(e).style == StyleTable[form.choice].1 &&
      NotesText(e.notes) == (if form.notesText == "" then NoDetails else form.notesText)
  {
    var e := SubmittedRecord(click.lat, click.lng, form);
    ReloadAfterAppend(file, e);
    var t := Load(Some(AppendRecord(file, e))).value;
    var n := |Records(file)|;
    assert |t.rows| == n + 1 && t.rows[n] == e;
    PlotErrorByColumns(t);
    LastRowMarkers(t.rows);
  }

  /**
   * A file holding one Riots row with an empty notes field reads as one
   * event, drawn in orange with the fire icon, its details read as absent.
   */
  lemma RiotsScenario()
    ensures var e := Event("Riots", 0.31, 32.58, "2024-01-01", None);
      var t := Load(Some(CsvFile(true, [e])));
      t.Ok? && t.value.rows == [e] && PlotError(t.value) == None &&
      CountPins(EventLayers(t.value.rows)) == 2 &&
      BriefMarker(e).style == Style("glyphicon-fire", "orange") &&
      NotesText(e.notes) == NoDetails
  {
    var e := Event("Riots", 0.31, 32.58, "2024-01-01", None);
    ResolveTable();
    PlotErrorByColumns(Table(Standard, [e]));
    TwoMarkersPerRow([e]);
  }
}
