/**
 * The event records the bot fetches, diffs and stores. A record is a JSON
 * object; the bot reads exactly these six keys from it.
 */
module Events {
  datatype Event = Event(
    uid: string,
    start: string,     // ISO-8601 start instant, as text
    end: string,       // ISO-8601 end instant, as text
    summary: string,
    location: string,
    descRaw: string    // the raw description, with its numbered outline
  )
}
