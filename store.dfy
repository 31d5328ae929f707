/**
 * The event file on disk: reading it into a table (a missing file reads as
 * an empty table) and appending one record to it.
 */
module Store {
  import opened Wrappers
  import opened Events
  import opened Markers

  /**
   * An existing event file: whether its first line is the five-column
   * header, then its records in file order.
   */
  datatype CsvFile = CsvFile(headed: bool, records: seq<Event>)

  /** A file with no line at all has no columns to read. */
  datatype LoadError = EmptyData

  /** The records of the file, none when it does not exist. */
  function Records(file: Option<CsvFile>): seq<Event> {
    if file.Some? then file.value.records else []
  }

  /**
   * Reading the file as a table. A missing file is caught and read as an
   * empty four-column table; otherwise the first line is the header, so a
   * file that begins with a record loses that record to the header.
   */
  function Load(file: Option<CsvFile>): (r: Result<Table, LoadError>)
    ensures file.None? ==> r == Ok(Table(WithoutNotes, []))
    ensures file.Some? && file.value.headed ==> r == Ok(Table(Standard, file.value.records))
    ensures file.Some? && !file.value.headed && file.value.records == [] ==> r == Err(EmptyData)
    ensures file.Some? && !file.value.headed && file.value.records != [] ==>
      r.Ok? && r.value.columns == Promoted(file.value.records[0]) &&
      [file.value.records[0]] + r.value.rows == file.value.records
  {
    match file
    case None => Ok(Table(WithoutNotes, []))
    case Some(CsvFile(headed, records)) =>
      if headed then Ok(Table(Standard, records))
      else if records == [] then Err(EmptyData)
      else Ok(Table(Promoted(records[0]), records[1..]))
  }

  /** A missing file yields an empty table, which yields no marker at all. */
  lemma MissingFileNoMarkers()
    ensures Load(None).Ok? && Load(None).value.rows == []
    ensures PlotError(Load(None).value) == None
    ensures CountPins(PlottedLayers(Load(None).value)) == 0
  {
    TwoMarkersPerRow([]);
  }

  /**
   * Absent, or starting with the header: the files the corrected append
   * (`AppendRecord`) leaves behind. The append as written can leave a
   * headerless file (`FirstAppendLost`).
   */
  predicate WellFormed(file: Option<CsvFile>) {
    file.None? || file.value.headed
  }

  /**
   * The append as the script writes it: one record after the existing ones,
   * never a header, creating the file when it is missing.
   */
  function AppendAsWritten(file: Option<CsvFile>, e: Event): (f: CsvFile)
    ensures f.records == Records(file) + [e]
    ensures f.headed == (file.Some? && file.value.headed)
  {
    match file
    case None => CsvFile(false, [e])
    case Some(CsvFile(headed, records)) => CsvFile(headed, records + [e])
  }

  /** On a missing file, the submitted record becomes the header of the next read and is lost. */
  lemma FirstAppendLost(e: Event)
    ensures Load(Some(AppendAsWritten(None, e))) == Ok(Table(Promoted(e), []))
    ensures |Load(Some(AppendAsWritten(None, e))).value.rows| != |Records(None)| + 1
  {
  }

  /** A second submission then makes the marker loop raise KeyError on event_type. */
  lemma SecondAppendBreaksMap(e1: Event, e2: Event)
    ensures var t := Load(Some(AppendAsWritten(Some(AppendAsWritten(None, e1)), e2)));
      t.Ok? && t.value.rows == [e2] && PlotError(t.value) == Some(EventType)
  {
    var t := Load(Some(AppendAsWritten(Some(AppendAsWritten(None, e1)), e2)));
    assert t.value.rows == [e1, e2][1..] == [e2];
    PlotErrorByColumns(t.value);
  }

  /**
   * The append with the header written exactly when the append creates the
   * file: existing files are never given a second header.
   */
  function AppendRecord(file: Option<CsvFile>, e: Event): (f: CsvFile)
    ensures f.records == Records(file) + [e]
    ensures f.headed == (file.None? || file.value.headed)
  {
    match file
    case None => CsvFile(true, [e])
    case Some(CsvFile(headed, records)) => CsvFile(headed, records + [e])
  }

  /**
   * With the corrected append, a file that is absent or starts with the
   * header stays readable, and the next read gives back the old rows,
   * unchanged and in order, then the new one.
   */
  lemma ReloadAfterAppend(file: Option<CsvFile>, e: Event)
    requires WellFormed(file)
    ensures Load(file).Ok? && Load(file).value.rows == Records(file)
    ensures WellFormed(Some(AppendRecord(file, e)))
    ensures Load(Some(AppendRecord(file, e))) == Ok(Table(Standard, Load(file).value.rows + [e]))
  {
  }

  /**
   * On a file that already exists the two appends agree, so the reload
   * property holds of the append as written for every existing headed file.
   */
  lemma AppendAgrees(f: CsvFile, e: Event)
    ensures AppendAsWritten(Some(f), e) == AppendRecord(Some(f), e)
  {
  }

  /** The event file, changed in place by appends. */
  class EventFile {
    var present: bool
    var headed: bool
    var records: seq<Event>

    /** A missing file has no header and no records. */
    ghost predicate Valid()
      reads this
    {
      present || (!headed && records == [])
    }

    /** The file's current content, `None` while it does not exist. */
    function Snapshot(): (f: Option<CsvFile>)
      reads this
      ensures f.Some? <==> present
    {
      if present then Some(CsvFile(headed, records)) else None
    }

    constructor (file: Option<CsvFile>)
      ensures Valid() && Snapshot() == file
    {
      present := file.Some?;
      headed := file.Some? && file.value.headed;
      records := Records(file);
    }

    /** Writes one record after the existing ones, with a header only if the file is new. */
    method Append(e: Event)
      requires Valid()
      modifies this
      ensures Valid() && present
      ensures records == old(records) + [e]
      ensures headed == (old(headed) || !old(present))
      ensures Snapshot() == Some(AppendRecord(old(Snapshot()), e))
    {
      if !present {
        headed := true;
      }
      present := true;
      records := records + [e];
    }
  }
}
