/** One election incident, as a row of the event file and of the in-memory table. */
module Events {
  import opened Wrappers

  /**
   * The five columns, in file order: event_type, latitude, longitude,
   * event_date, notes. The date is kept as the text the file holds and the
   * popups print; a notes field that is empty or absent is `None`.
   */
  datatype Event = Event(
    eventType: string,
    lat: real,
    lng: real,
    eventDate: string,
    notes: Option<string>)
}
