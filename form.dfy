/** The last map click, the gate that offers the event form, and the record it submits. */
module Form {
  import opened Wrappers
  import opened Events
  import opened Styles

  /** The map widget's last click: a latitude and a longitude. */
  datatype Click = Click(lat: real, lng: real)

  /** The latitude of the last click, `None` when nothing was clicked. */
  function ClickedLatitude(lastClicked: Option<Click>): (lat: Option<real>)
    ensures lat.Some? <==> lastClicked.Some?
    ensures lat.Some? ==> lat.value == lastClicked.value.lat
  {
    if lastClicked.Some? then Some(lastClicked.value.lat) else None
  }

  /** The longitude of the last click, `None` when nothing was clicked. */
  function ClickedLongitude(lastClicked: Option<Click>): (lng: Option<real>)
    ensures lng.Some? <==> lastClicked.Some?
    ensures lng.Some? ==> lng.value == lastClicked.value.lng
  {
    if lastClicked.Some? then Some(lastClicked.value.lng) else None
  }

  /** Python truthiness of an optional number: present and not zero. */
  predicate Truthy(x: Option<real>) {
    x.Some? && x.value != 0.0
  }

  /** The form is offered when both coordinates are truthy: present and nonzero. */
  predicate FormOffered(lat: Option<real>, lng: Option<real>)
    ensures FormOffered(lat, lng) ==> lat.Some? && lng.Some?
    ensures lat == Some(0.0) || lng == Some(0.0) ==> !FormOffered(lat, lng)
  {
    Truthy(lat) && Truthy(lng)
  }

  /**
   * The form appears exactly for a click off both zero lines: never without
   * a click, never on the equator or on the prime meridian.
   */
  lemma FormGate(lastClicked: Option<Click>)
    ensures FormOffered(ClickedLatitude(lastClicked), ClickedLongitude(lastClicked)) <==>
      lastClicked.Some? && lastClicked.value.lat != 0.0 && lastClicked.value.lng != 0.0
    ensures lastClicked.None? ==>
      ClickedLatitude(lastClicked) == None && ClickedLongitude(lastClicked) == None
  {
  }

  /**
   * What the user entered: the position of the chosen type in the selector,
   * the picked date (as text) and the notes box (possibly empty).
   */
  datatype FormInput = FormInput(choice: nat, eventDate: string, notesText: string)

  /** A notes box left empty is written as an empty field, which reads back as absent. */
  function NotesField(notesText: string): (notes: Option<string>)
    ensures notes.None? <==> notesText == ""
    ensures notes.Some? ==> notes.value == notesText
  {
    if notesText == "" then None else Some(notesText)
  }

  /**
   * The record a submission appends. The selector offers only the table's
   * keys, so the record's type is always a known one and never gets the
   * default style.
   */
  function SubmittedRecord(lat: real, lng: real, form: FormInput): (e: Event)
    requires form.choice < |KnownTypes()|
    ensures e.eventType == StyleTable[form.choice].0 && e.eventType in KnownTypes()
    ensures Resolve(e.eventType) == StyleTable[form.choice].1
    ensures Resolve(e.eventType) != DefaultStyle
    ensures e.lat == lat && e.lng == lng && e.eventDate == form.eventDate
    ensures e.notes == NotesField(form.notesText)
  {
    var e := Event(KnownTypes()[form.choice], lat, lng, form.eventDate, NotesField(form.notesText));
    ResolveKnown(form.choice);
    KnownNotDefault(e.eventType);
    e
  }
}
