/** The values exchanged between the chat gateway and its clients: the
    message record, a registry entry, and the events the gateway pushes
    together with their audience. A transport socket is reduced to the
    opaque connection id the transport assigns to it. */
module Chat {

  /** The transport's connection identifier (a socket.io socket id). */
  type ConnId = string

  /** The chat message record; the gateway forwards it untouched. */
  datatype Message = Message(id: string, nameFrom: string, nameTo: string, text: string, isPrivate: bool)

  /** One registered session: the display name chosen by the client and
      the connection it registered from. */
  datatype Entry = Entry(name: string, client: ConnId)

  /** Who receives an emission: every connected socket (`server.emit`)
      or one socket (`socket.emit`). */
  datatype Audience = All | To(id: ConnId)

  /** The events the gateway pushes, each with its payload. */
  datatype Event =
    | CountOnline(count: nat)
    | AddPersons(names: seq<string>)
    | RemovePerson(name: string)
    | EnableOnline
    | MessageToAll(message: Message, senderId: ConnId)
    | MessageTo(message: Message)

  /** One `emit` call: an event and the sockets it is sent to. */
  datatype Emission = Emission(audience: Audience, event: Event)

  /** The event name that goes on the wire for each kind of event. */
  function WireName(e: Event): string
  {
    match e
    case CountOnline(_) => "countOnline"
    case AddPersons(_) => "addPersons"
    case RemovePerson(_) => "removePerson"
    case EnableOnline => "enableOnline"
    case MessageToAll(_, _) => "messageToAll"
    case MessageTo(_) => "messageTo"
  }

  /** The wire name tells which kind of event was sent: two events share a
      name exactly when they are of the same kind. */
  lemma WireNameDeterminesKind(e1: Event, e2: Event)
    ensures WireName(e1) == WireName(e2) <==>
      (e1.CountOnline? && e2.CountOnline?) || (e1.AddPersons? && e2.AddPersons?) ||
      (e1.RemovePerson? && e2.RemovePerson?) || (e1.EnableOnline? && e2.EnableOnline?) ||
      (e1.MessageToAll? && e2.MessageToAll?) || (e1.MessageTo? && e2.MessageTo?)
  {
  }
}
