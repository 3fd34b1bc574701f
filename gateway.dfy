/** The chat gateway: the list of registered entries and the event
    handlers that read and change it. Each handler returns, in order, the
    emissions it makes (`server.emit` to All, `socket.emit` to one
    connection); the transport that delivers them is not part of this model. */
module Gateway {
  import opened Chat
  import opened Registry

  class AppGateway {
    /** The registered entries, in registration order. */
    var clients: seq<Entry>

    /** A gateway starts with no entries. */
    constructor ()
      ensures clients == []
    {
      clients := [];
    }

    /** Event `messageToAll`: broadcast the payload, with the sender's
        connection id, to every socket. The list is not touched. */
    method HandleMessage(client: ConnId, payload: Message) returns (emitted: seq<Emission>)
      ensures emitted == [Emission(All, MessageToAll(payload, client))]
    {
      emitted := [Emission(All, MessageToAll(payload, client))];
    }

    /** Event `messageTo`: deliver the payload unchanged to the connection of
        the first entry named `payload.nameTo`, and to no one else; when no
        entry has that name the message is dropped without any signal.
        The list is not touched. */
    method SendMessageTo(client: ConnId, payload: Message) returns (emitted: seq<Emission>)
      ensures |emitted| <= 1
      ensures emitted == [] <==> forall j :: 0 <= j < |clients| ==> clients[j].name != payload.nameTo
      ensures emitted != [] ==>
        exists k :: 0 <= k < |clients| && clients[k].name == payload.nameTo
          && (forall j :: 0 <= j < k ==> clients[j].name != payload.nameTo)
          && emitted == [Emission(To(clients[k].client), MessageTo(payload))]
    {
      var personTo := First(clients, HasName(payload.nameTo));
      match personTo
      case None =>
        emitted := [];
        forall j | 0 <= j < |clients| ensures clients[j].name != payload.nameTo {
          assert !HasName(payload.nameTo)(clients[j]);
        }
      case Some(k) =>
        emitted := [Emission(To(clients[k].client), MessageTo(payload))];
        assert HasName(payload.nameTo)(clients[k]);
        forall j | 0 <= j < k ensures clients[j].name != payload.nameTo {
          assert !HasName(payload.nameTo)(clients[j]);
        }
    }

    /** Event `connectName`: append an entry for this connection, with no
        check on the name or on earlier registrations, then announce the new
        count and the full name list to everyone and acknowledge the
        registering connection alone. */
    method ConnectName(client: ConnId, name: string) returns (emitted: seq<Emission>)
      modifies this
      ensures clients == old(clients) + [Entry(name, client)]
      ensures |clients| == |old(clients)| + 1
      ensures Names(clients) == Names(old(clients)) + [name]
      ensures emitted == [Emission(All, CountOnline(|clients|)),
                          Emission(All, AddPersons(Names(clients))),
                          Emission(To(client), EnableOnline)]
    {
      NamesAppend(clients, [Entry(name, client)]);
      clients := clients + [Entry(name, client)];
      emitted := [Emission(All, CountOnline(|clients|)),
                  Emission(All, AddPersons(Names(clients))),
                  Emission(To(client), EnableOnline)];
    }

    /** Transport connect: announce the current count and names to everyone.
        The new connection has no entry yet, so it is not counted. */
    method HandleConnection(client: ConnId) returns (emitted: seq<Emission>)
      ensures |emitted| == 2
      ensures emitted[0] == Emission(All, CountOnline(|clients|))
      ensures emitted[1].audience == All && emitted[1].event.AddPersons?
      ensures |emitted[1].event.names| == |clients|
      ensures forall i :: 0 <= i < |clients| ==> emitted[1].event.names[i] == clients[i].name
    {
      emitted := [Emission(All, CountOnline(|clients|)),
                  Emission(All, AddPersons(Names(clients)))];
    }

    /** Transport disconnect: when the connection has an entry, drop every
        entry of that connection, then announce the new count and the name
        of the first entry found. Without an entry nothing happens. */
    method HandleDisconnect(client: ConnId) returns (emitted: seq<Emission>)
      modifies this
      ensures First(old(clients), HasClient(client)).None? ==>
        clients == old(clients) && emitted == []
      ensures First(old(clients), HasClient(client)).Some? ==>
        clients == Without(old(clients), client) && |clients| < |old(clients)|
          && emitted == [Emission(All, CountOnline(|clients|)),
                         Emission(All, RemovePerson(old(clients)[First(old(clients), HasClient(client)).value].name))]
    {
      var clientFind := First(clients, HasClient(client));
      match clientFind
      case None =>
        emitted := [];
        WithoutAbsent(clients, client);
      case Some(k) =>
        WithoutPresent(clients, client);
        var name := clients[k].name;
        clients := Without(clients, client);
        emitted := [Emission(All, CountOnline(|clients|)),
                    Emission(All, RemovePerson(name))];
    }
  }
}
