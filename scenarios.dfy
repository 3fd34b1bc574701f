/** Runs of the gateway's handlers in sequence, as one event loop would
    deliver them; each states what the sockets receive. */
module Scenarios {
  import opened Chat
  import opened Gateway

  /** Alice and Bob register, then Alice writes to Bob: the count after both
      registrations is 2, the second name list holds both names, and only
      Bob's connection receives the message. */
  method DirectMessageReachesOnlyRecipient(a: ConnId, b: ConnId, m: Message)
      returns (secondRegistration: seq<Emission>, delivered: seq<Emission>)
    requires m.nameTo == "bob"
    ensures |secondRegistration| == 3
    ensures secondRegistration[0] == Emission(All, CountOnline(2))
    ensures secondRegistration[1] == Emission(All, AddPersons(["alice", "bob"]))
    ensures delivered == [Emission(To(b), MessageTo(m))]
  {
    var g := new AppGateway();
    var e := g.HandleConnection(a);
    e := g.ConnectName(a, "alice");
    e := g.HandleConnection(b);
    secondRegistration := g.ConnectName(b, "bob");
    assert g.clients == [Entry("alice", a), Entry("bob", b)];
    assert secondRegistration[1].event.names == ["alice", "bob"];
    delivered := g.SendMessageTo(a, m);
  }

  /** Two connections register the same name: a message to that name goes
      to the one that registered first. */
  method DuplicateNameGoesToFirst(a: ConnId, b: ConnId, name: string, m: Message)
      returns (delivered: seq<Emission>)
    requires m.nameTo == name
    ensures delivered == [Emission(To(a), MessageTo(m))]
  {
    var g := new AppGateway();
    var e := g.ConnectName(a, name);
    e := g.ConnectName(b, name);
    delivered := g.SendMessageTo(b, m);
  }

  /** Alice registers and leaves: everyone left hears a count of 0 and
      Alice's name removed. */
  method RegisterThenDisconnect(a: ConnId) returns (left: seq<Emission>)
    ensures left == [Emission(All, CountOnline(0)), Emission(All, RemovePerson("alice"))]
  {
    var g := new AppGateway();
    var e := g.HandleConnection(a);
    e := g.ConnectName(a, "alice");
    left := g.HandleDisconnect(a);
  }

  /** A connection that never registered leaves: nothing is announced and
      the registered entries stay. */
  method UnregisteredDisconnectIsSilent(a: ConnId, b: ConnId)
      returns (left: seq<Emission>, remaining: seq<Entry>)
    requires a != b
    ensures left == []
    ensures remaining == [Entry("alice", a)]
  {
    var g := new AppGateway();
    var e := g.ConnectName(a, "alice");
    e := g.HandleConnection(b);
    left := g.HandleDisconnect(b);
    remaining := g.clients;
  }

  /** Registering twice from one connection gives two entries, and leaving
      removes both but announces one name. */
  method RegisterTwiceThenDisconnect(a: ConnId, name: string)
      returns (twice: seq<Entry>, left: seq<Emission>, remaining: seq<Entry>)
    ensures twice == [Entry(name, a), Entry(name, a)]
    ensures left == [Emission(All, CountOnline(0)), Emission(All, RemovePerson(name))]
    ensures remaining == []
  {
    var g := new AppGateway();
    var e := g.ConnectName(a, name);
    e := g.ConnectName(a, name);
    twice := g.clients;
    assert Registry.Without(twice, a) == [];  // both entries belong to `a`
    left := g.HandleDisconnect(a);
    remaining := g.clients;
  }

  /** A connection leaves twice: the second disconnect finds no entry and
      announces nothing. */
  method SecondDisconnectIsSilent(a: ConnId, name: string) returns (again: seq<Emission>)
    ensures again == []
  {
    var g := new AppGateway();
    var e := g.ConnectName(a, name);
    e := g.HandleDisconnect(a);
    again := g.HandleDisconnect(a);
  }

  /** The wire names of a registration's emissions, in order. */
  method RegistrationWireNames(a: ConnId, name: string) returns (wire: seq<string>)
    ensures wire == ["countOnline", "addPersons", "enableOnline"]
  {
    var g := new AppGateway();
    var e := g.ConnectName(a, name);
    wire := [WireName(e[0].event), WireName(e[1].event), WireName(e[2].event)];
  }
}
