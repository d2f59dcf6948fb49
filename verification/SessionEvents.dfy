/** Session events and how the gateway writes them to an event stream
    (apps/gateway/src/event-stream.ts). */
module SessionEvents {
  import opened Wrappers
  import opened CanonicalJson

  datatype Event = Event(eventId: string, sessionId: string, occurredAt: string, kind: string, data: Value, traceId: string)

  /** The members in the order in which `emit` creates them. */
  function EventJson(e: Event): Value {
    Obj([ Member("eventId", Str(e.eventId)), Member("sessionId", Str(e.sessionId)), Member("occurredAt", Str(e.occurredAt)),
          Member("type", Str(e.kind)), Member("data", e.data), Member("traceId", Str(e.traceId)) ])
  }

  ghost predicate Printable(e: Event) {
    WellFormed(e.data) && Representable(e.data)
  }

  lemma PrintableJson(e: Event)
    requires Printable(e)
    ensures WellFormed(EventJson(e)) && Representable(EventJson(e))
  {}

  /** `JSON.stringify(event)` */
  function EventText(e: Event): string
    requires Representable(e.data)
  {
    Stringify(EventJson(e))
  }

  /** `serializeSse` */
  function SerializeSse(e: Event): string
    requires Representable(e.data)
  {
    "id: " + e.eventId + "\nevent: " + e.kind + "\ndata: " + EventText(e) + "\n\n"
  }

  /** `findIndex`: the position of the first event with that id */
  function FindEvent(events: seq<Event>, id: string): (r: Option<nat>)
    ensures r.Some? ==> r.value < |events| && events[r.value].eventId == id && forall i | 0 <= i < r.value :: events[i].eventId != id
    ensures r == None ==> forall i | 0 <= i < |events| :: events[i].eventId != id
  {
    if events == [] then None
    else if events[0].eventId == id then Some(0)
    else match FindEvent(events[1..], id) case None => None case Some(i) => Some(i + 1)
  }

  /** `eventsAfterLastId`; an empty id counts as none. */
  function EventsAfterLastId(events: seq<Event>, lastEventId: Option<string>): seq<Event> {
    if lastEventId == None || lastEventId == Some("") then events
    else
      match FindEvent(events, lastEventId.value)
      case None => events
      case Some(i) => events[i + 1..]
  }

  predicate HasId(events: seq<Event>, id: string) {
    exists i | 0 <= i < |events| :: events[i].eventId == id
  }

  ghost predicate UniqueIds(events: seq<Event>) {
    forall i, j | 0 <= i < j < |events| :: events[i].eventId != events[j].eventId
  }
}
