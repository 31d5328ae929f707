/**
 * The layers the script puts on the map: one short-popup marker per row,
 * the fixed embassy circle, then one detailed-popup marker per row.
 */
module Markers {
  import opened Wrappers
  import opened Events
  import opened Styles

  datatype Marker = Marker(lat: real, lng: real, popup: string, tooltip: string, style: Style)

  /** A map layer: an event marker, or the fixed circle around the embassy in Kampala. */
  datatype Layer = Pin(marker: Marker) | Circle(lat: real, lng: real, radiusMeters: nat, popup: string)

  const EmbassyCircle: Layer := Circle(0.29974, 32.59365, 500, "U.S. Embassy Kampala")

  /** Which columns of the loaded table exist. */
  datatype Columns =
    | Standard        // event_type, latitude, longitude, event_date, notes
    | WithoutNotes    // the first four only: the table made when the file is missing
    | Promoted(first: Event)  // the file began with a record, which was taken as the header

  datatype Table = Table(columns: Columns, rows: seq<Event>)

  /** The five columns of the event file: event_type, latitude, longitude, event_date, notes. */
  datatype Column = EventType | Latitude | Longitude | EventDate | Notes

  /**
   * Whether `col` is a column of the table. A promoted header holds a
   * category name, two numbers, a date and the notes text, none of which is
   * a column name.
   */
  predicate HasColumn(c: Columns, col: Column) {
    match c
    case Standard => true
    case WithoutNotes => col != Notes
    case Promoted(_) => false
  }

  /** Where `col` stands in `DetailedColumns`, which lists every column. */
  function ColumnIndex(col: Column): (k: nat)
    ensures k < |DetailedColumns| && DetailedColumns[k] == col
  {
    match col
    case EventType => 0
    case Notes => 1
    case Latitude => 2
    case Longitude => 3
    case EventDate => 4
  }

  /** The columns the first loop reads, in the order it reads them. */
  const BriefColumns: seq<Column> := [EventType, Latitude, Longitude, EventDate]
  /** The columns the second loop reads, in the order it reads them. */
  const DetailedColumns: seq<Column> := [EventType, Notes, Latitude, Longitude, EventDate]

  /** The first of `names` that is not a column: the key a row lookup raises KeyError on. */
  function FirstMissing(c: Columns, names: seq<Column>): (r: Option<Column>)
    ensures r.None? <==> forall k :: 0 <= k < |names| ==> HasColumn(c, names[k])
    ensures r.Some? ==> exists k :: (0 <= k < |names| && names[k] == r.value &&
      !HasColumn(c, r.value) && forall j :: 0 <= j < k ==> HasColumn(c, names[j]))
  {
    if names == [] then None
    else if !HasColumn(c, names[0]) then Some(names[0])
    else
      var r := FirstMissing(c, names[1..]);
      if r.Some? then
        var k :| 0 <= k < |names| - 1 && names[1..][k] == r.value &&
          !HasColumn(c, r.value) && forall j :: 0 <= j < k ==> HasColumn(c, names[1..][j]);
        assert names[k + 1] == r.value;
        assert forall j :: 0 <= j < k + 1 ==> HasColumn(c, names[j]) by {
          forall j | 0 <= j < k + 1 ensures HasColumn(c, names[j]) {
            if j > 0 { assert names[j] == names[1..][j - 1]; }
          }
        }
        r
      else
        assert forall k :: 0 <= k < |names| ==> HasColumn(c, names[k]) by {
          forall k | 0 <= k < |names| ensures HasColumn(c, names[k]) {
            if k > 0 { assert names[k] == names[1..][k - 1]; }
          }
        }
        r
  }

  /** The text a missing notes field is shown as. */
  const NoDetails: string := "No additional details."

  /** The notes a detailed popup shows: the row's own, or the fallback text when absent. */
  function NotesText(notes: Option<string>): (shown: string)
    ensures notes.Some? ==> shown == notes.value
    ensures notes.None? ==> shown == NoDetails
  {
    notes.GetOr(NoDetails)
  }

  /**
   * The marker of the first loop: at the row's coordinates, the row's type as
   * tooltip, its resolved style; popup "<type> (<date>)".
   */
  function BriefMarker(e: Event): (m: Marker)
    ensures m.lat == e.lat && m.lng == e.lng
    ensures m.tooltip == e.eventType && m.style == Resolve(e.eventType)
    ensures |e.eventType| < |m.popup| && m.popup[..|e.eventType|] == e.eventType
  {
    Marker(e.lat, e.lng, e.eventType + " (" + e.eventDate + ")", e.eventType, Resolve(e.eventType))
  }

  /**
   * The marker of the second loop: the same place, tooltip and style as the
   * first one; popup with type, date and notes (or the fallback text).
   */
  function DetailedMarker(e: Event): (m: Marker)
    ensures m.lat == e.lat && m.lng == e.lng
    ensures m.tooltip == e.eventType && m.style == Resolve(e.eventType)
    ensures m.lat == BriefMarker(e).lat && m.lng == BriefMarker(e).lng && m.style == BriefMarker(e).style
    ensures |NotesText(e.notes)| <= |m.popup| && m.popup[|m.popup| - |NotesText(e.notes)|..] == NotesText(e.notes)
  {
    Marker(e.lat, e.lng,
      "<b>Type:</b> " + e.eventType + "<br><b>Date:</b> " + e.eventDate +
      "<br><b>Notes:</b> " + NotesText(e.notes),
      e.eventType, Resolve(e.eventType))
  }

  /** One pin per row, in row order, drawn by `mk`. */
  function Pins(rows: seq<Event>, mk: Event -> Marker): (pins: seq<Layer>)
    ensures |pins| == |rows|
  {
    if rows == [] then [] else Pins(rows[..|rows| - 1], mk) + [Pin(mk(rows[|rows| - 1]))]
  }

  /** Everything the two loops and the circle add, in order. */
  function EventLayers(rows: seq<Event>): (layers: seq<Layer>)
    ensures |layers| == 2 * |rows| + 1
  {
    Pins(rows, BriefMarker) + [EmbassyCircle] + Pins(rows, DetailedMarker)
  }

  /** The number of event markers among `layers`. */
  function CountPins(layers: seq<Layer>): nat {
    if layers == [] then 0 else CountPins(layers[..|layers| - 1]) + (if layers[|layers| - 1].Pin? then 1 else 0)
  }

  /** Row `i` yields pin `i`, drawn from that row alone. */
  lemma {:induction false} PinsAt(rows: seq<Event>, mk: Event -> Marker, i: nat)
    requires i < |rows|
    ensures |Pins(rows, mk)| == |rows|
    ensures Pins(rows, mk)[i] == Pin(mk(rows[i]))
  {
    var n := |rows| - 1;
    if i < n {
      PinsAt(rows[..n], mk, i);
    } else if n > 0 {
      PinsAt(rows[..n], mk, 0);
    }
  }

  /** Adding one more row adds its pin at the end. */
  lemma PinsExtend(rows: seq<Event>, mk: Event -> Marker, i: nat)
    requires i < |rows|
    ensures Pins(rows[..i + 1], mk) == Pins(rows[..i], mk) + [Pin(mk(rows[i]))]
  {
    assert rows[..i + 1][..i] == rows[..i];
  }

  /** Every layer of `Pins` is a pin. */
  lemma {:induction false} CountPinsOfPins(rows: seq<Event>, mk: Event -> Marker)
    ensures CountPins(Pins(rows, mk)) == |rows|
  {
    if rows != [] {
      var n := |rows| - 1;
      CountPinsOfPins(rows[..n], mk);
      var ps := Pins(rows, mk);
      assert ps[..|ps| - 1] == Pins(rows[..n], mk);
    }
  }

  /** Counting distributes over concatenation. */
  lemma {:induction false} CountPinsConcat(a: seq<Layer>, b: seq<Layer>)
    ensures CountPins(a + b) == CountPins(a) + CountPins(b)
  {
    if b != [] {
      var n := |b| - 1;
      assert (a + b)[..|a + b| - 1] == a + b[..n];
      CountPinsConcat(a, b[..n]);
    } else {
      assert a + b == a;
    }
  }

  /**
   * Each row yields exactly two markers, both at the row's coordinates, with
   * the row's type as tooltip and its resolved style; there are no others.
   */
  lemma TwoMarkersPerRow(rows: seq<Event>)
    ensures |EventLayers(rows)| == 2 * |rows| + 1
    ensures CountPins(EventLayers(rows)) == 2 * |rows|
    ensures EventLayers(rows)[|rows|] == EmbassyCircle
    ensures forall i :: 0 <= i < |rows| ==>
      EventLayers(rows)[i] == Pin(BriefMarker(rows[i])) &&
      EventLayers(rows)[|rows| + 1 + i] == Pin(DetailedMarker(rows[i]))
    ensures forall k :: 0 <= k < |EventLayers(rows)| && EventLayers(rows)[k].Pin? ==>
      var i := if k < |rows| then k else k - |rows| - 1;
      0 <= i < |rows| &&
      EventLayers(rows)[k].marker.lat == rows[i].lat &&
      EventLayers(rows)[k].marker.lng == rows[i].lng &&
      EventLayers(rows)[k].marker.tooltip == rows[i].eventType &&
      EventLayers(rows)[k].marker.style == Resolve(rows[i].eventType)
  {
    var brief, detailed := Pins(rows, BriefMarker), Pins(rows, DetailedMarker);
    CountPinsOfPins(rows, BriefMarker);
    CountPinsOfPins(rows, DetailedMarker);
    CountPinsConcat(brief, [EmbassyCircle]);
    assert CountPins([EmbassyCircle]) == 0 by { assert [EmbassyCircle][..0] == []; }
    CountPinsConcat(brief + [EmbassyCircle], detailed);
    if rows == [] {
      assert EventLayers(rows) == [EmbassyCircle];
    } else {
      PinsAt(rows, BriefMarker, 0);
      PinsAt(rows, DetailedMarker, 0);
    }
    forall i | 0 <= i < |rows|
      ensures EventLayers(rows)[i] == Pin(BriefMarker(rows[i]))
      ensures EventLayers(rows)[|rows| + 1 + i] == Pin(DetailedMarker(rows[i]))
    {
      PinsAt(rows, BriefMarker, i);
      PinsAt(rows, DetailedMarker, i);
    }
  }

  /** The markers of the last row: the last short one and the very last layer. */
  lemma LastRowMarkers(rows: seq<Event>)
    requires rows != []
    ensures EventLayers(rows)[|rows| - 1] == Pin(BriefMarker(rows[|rows| - 1]))
    ensures EventLayers(rows)[2 * |rows|] == Pin(DetailedMarker(rows[|rows| - 1]))
  {
    var n := |rows| - 1;
    PinsAt(rows, BriefMarker, n);
    PinsAt(rows, DetailedMarker, n);
  }

  /** Two rows at one spot are not merged: each keeps its own markers, in row order. */
  lemma CoincidentEventsKept(a: Event, b: Event)
    requires a.lat == b.lat && a.lng == b.lng
    ensures CountPins(EventLayers([a, b])) == 4
    ensures EventLayers([a, b]) ==
      [Pin(BriefMarker(a)), Pin(BriefMarker(b)), EmbassyCircle, Pin(DetailedMarker(a)), Pin(DetailedMarker(b))]
  {
    var rows := [a, b];
    TwoMarkersPerRow(rows);
    assert EventLayers(rows)[0] == Pin(BriefMarker(rows[0]));
    assert EventLayers(rows)[1] == Pin(BriefMarker(rows[1]));
    assert EventLayers(rows)[3] == Pin(DetailedMarker(rows[0]));
    assert EventLayers(rows)[4] == Pin(DetailedMarker(rows[1]));
  }

  /** The short popup is the type, then the date in parentheses. */
  lemma BriefPopupShape(e: Event)
    ensures var p := BriefMarker(e).popup;
      var n := |e.eventType|;
      |p| == n + |e.eventDate| + 3 &&
      p[..n] == e.eventType && p[n..n + 2] == " (" && p[n + 2..|p| - 1] == e.eventDate && p[|p| - 1] == ')'
  {
  }

  /**
   * The detailed popup is, in order: the type label and the type, the date
   * label and the date, the notes label and the notes (or the fallback text).
   */
  lemma DetailedPopupShape(e: Event)
    ensures var p := DetailedMarker(e).popup;
      var t, d, n := e.eventType, e.eventDate, NotesText(e.notes);
      var a := 13 + |t|;
      var b := a + 17 + |d|;
      |p| == b + 18 + |n| &&
      p[..13] == "<b>Type:</b> " && p[13..a] == t &&
      p[a..a + 17] == "<br><b>Date:</b> " && p[a + 17..b] == d &&
      p[b..b + 18] == "<br><b>Notes:</b> " && p[b + 18..] == n
  {
    var typeLabel, dateLabel, notesLabel := "<b>Type:</b> ", "<br><b>Date:</b> ", "<br><b>Notes:</b> ";
    assert |typeLabel| == 13 && |dateLabel| == 17 && |notesLabel| == 18;
    SixPieces(typeLabel, e.eventType, dateLabel, e.eventDate, notesLabel, NotesText(e.notes));
  }

  /** A concatenation of six strings splits back into them at their lengths. */
  lemma SixPieces(s1: string, s2: string, s3: string, s4: string, s5: string, s6: string)
    ensures var p := s1 + s2 + s3 + s4 + s5 + s6;
      var a := |s1| + |s2|;
      var b := a + |s3| + |s4|;
      |p| == b + |s5| + |s6| &&
      p[..|s1|] == s1 && p[|s1|..a] == s2 && p[a..a + |s3|] == s3 && p[a + |s3|..b] == s4 &&
      p[b..b + |s5|] == s5 && p[b + |s5|..] == s6
  {
    var p := s1 + s2 + s3 + s4 + s5 + s6;
    var head := s1 + s2 + s3 + s4;
    assert p == head + s5 + s6;
    assert (s1 + s2)[..|s1|] == s1 && (s1 + s2)[|s1|..] == s2;
    assert head[..|s1| + |s2|] == s1 + s2;
    assert p[..|head|] == head;
  }

  /** The detailed popup ends with the notes, or with the fallback text when there are none. */
  lemma DetailedPopupNotes(e: Event)
    ensures var p := DetailedMarker(e).popup;
      var tail := if e.notes.Some? then e.notes.value else NoDetails;
      |tail| <= |p| && p[|p| - |tail|..] == tail
  {
  }

  /**
   * The KeyError the two loops raise, if any: a row lookup of a column the
   * table lacks fails at the first row, so an empty table never raises.
   */
  function PlotError(t: Table): (r: Option<Column>)
    ensures r.None? <==>
      t.rows == [] || forall k :: 0 <= k < |DetailedColumns| ==> HasColumn(t.columns, DetailedColumns[k])
    ensures r.Some? ==> t.rows != [] && !HasColumn(t.columns, r.value)
  {
    if t.rows == [] then None
    else if FirstMissing(t.columns, BriefColumns).Some? then
      var col := FirstMissing(t.columns, BriefColumns).value;
      assert DetailedColumns[ColumnIndex(col)] == col;
      FirstMissing(t.columns, BriefColumns)
    else FirstMissing(t.columns, DetailedColumns)
  }

  /** The layers added before the loops stop: all of them, or those before the failing loop. */
  function PlottedLayers(t: Table): (layers: seq<Layer>)
    ensures layers <= EventLayers(t.rows)
    ensures PlotError(t).None? <==> layers == EventLayers(t.rows)
  {
    if t.rows != [] && FirstMissing(t.columns, BriefColumns).Some? then []
    else if t.rows != [] && FirstMissing(t.columns, DetailedColumns).Some? then
      Pins(t.rows, BriefMarker) + [EmbassyCircle]
    else EventLayers(t.rows)
  }

  /**
   * A five-column table always plots; a four-column one only when it has no
   * rows (the second loop asks for notes); a table whose header is a promoted
   * record only when it has no rows (the first loop asks for event_type).
   */
  lemma PlotErrorByColumns(t: Table)
    ensures t.columns.Standard? ==> PlotError(t) == None
    ensures t.columns.WithoutNotes? ==> PlotError(t) == if t.rows == [] then None else Some(Notes)
    ensures t.columns.Promoted? ==> PlotError(t) == if t.rows == [] then None else Some(EventType)
    ensures PlotError(t) == None ==> PlottedLayers(t) == EventLayers(t.rows)
  {
    if t.rows != [] {
      var c := t.columns;
      if c.WithoutNotes? {
        assert !HasColumn(c, DetailedColumns[1]);
      } else if c.Promoted? {
        assert !HasColumn(c, BriefColumns[0]);
      }
    }
  }

  /** The folium map: the layers added to it so far, in order. */
  class FoliumMap {
    var layers: seq<Layer>

    /** A new map; its tiles, zoom and fullscreen control are not layers. */
    constructor ()
      ensures layers == []
    {
      layers := [];
    }

    /** `add_to`: the layer goes on top of those already there. */
    method AddTo(l: Layer)
      modifies this
      ensures layers == old(layers) + [l]
    {
      layers := layers + [l];
    }
  }

  /** The first loop: one short-popup marker per row. */
  method AddBriefMarkers(m: FoliumMap, t: Table) returns (missing: Option<Column>)
    modifies m
    ensures missing == (if t.rows == [] then None else FirstMissing(t.columns, BriefColumns))
    ensures m.layers == old(m.layers) + (if missing.Some? then [] else Pins(t.rows, BriefMarker))
  {
    var i := 0;
    while i < |t.rows|
      invariant 0 <= i <= |t.rows|
      invariant i > 0 ==> FirstMissing(t.columns, BriefColumns).None?
      invariant m.layers == old(m.layers) + Pins(t.rows[..i], BriefMarker)
    {
      missing := FirstMissing(t.columns, BriefColumns);
      if missing.Some? {
        assert i == 0 && m.layers == old(m.layers) + [];
        return;
      }
      m.AddTo(Pin(BriefMarker(t.rows[i])));
      PinsExtend(t.rows, BriefMarker, i);
      i := i + 1;
    }
    assert t.rows[..i] == t.rows;
    missing := None;
  }

  /** The second loop: one detailed-popup marker per row. */
  method AddDetailedMarkers(m: FoliumMap, t: Table) returns (missing: Option<Column>)
    modifies m
    ensures missing == (if t.rows == [] then None else FirstMissing(t.columns, DetailedColumns))
    ensures m.layers == old(m.layers) + (if missing.Some? then [] else Pins(t.rows, DetailedMarker))
  {
    var i := 0;
    while i < |t.rows|
      invariant 0 <= i <= |t.rows|
      invariant i > 0 ==> FirstMissing(t.columns, DetailedColumns).None?
      invariant m.layers == old(m.layers) + Pins(t.rows[..i], DetailedMarker)
    {
      missing := FirstMissing(t.columns, DetailedColumns);
      if missing.Some? {
        assert i == 0 && m.layers == old(m.layers) + [];
        return;
      }
      m.AddTo(Pin(DetailedMarker(t.rows[i])));
      PinsExtend(t.rows, DetailedMarker, i);
      i := i + 1;
    }
    assert t.rows[..i] == t.rows;
    missing := None;
  }

  /**
   * Both loops with the embassy circle between them; a KeyError stops the
   * script where it is raised.
   */
  method PlotEvents(m: FoliumMap, t: Table) returns (keyError: Option<Column>)
    modifies m
    ensures keyError == PlotError(t)
    ensures m.layers == old(m.layers) + PlottedLayers(t)
  {
    keyError := AddBriefMarkers(m, t);
    if keyError.Some? {
      assert t.rows != [] && FirstMissing(t.columns, BriefColumns).Some?;
      assert PlotError(t) == keyError && PlottedLayers(t) == [];
      return;
    }
    assert t.rows == [] || FirstMissing(t.columns, BriefColumns).None?;
    m.AddTo(EmbassyCircle);
    keyError := AddDetailedMarkers(m, t);
    assert PlotError(t) == keyError;
  }
}
