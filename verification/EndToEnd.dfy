/** A server object and a client object joined by one session's log. */
module EndToEnd {
  import opened Machine
  import opened Tables
  import opened Protocol
  import opened Server
  import opened Runs
  import Client
  import GameClient
  import GameServer

  /** A client object that has handled any prefix of its session's log handles the rest. */
  method CatchUp(client: GameClient.GameClient, queue: seq<Msg>, ghost t: Data, ghost w: World, ghost es: seq<Event>,
                 ghost rules: Rules, ghost s: SessionId, ghost handled: nat)
    requires client.Valid()
    requires WellFormed(t) && Initial(w) && Run(t, w, es, rules) && rules.disciplined
    requires s in After(t, w, es, rules).sessions && After(t, w, es, rules).sessions[s].connected
    requires var log := After(t, w, es, rules).sessions[s].sent;
             handled <= |log| && client.View() == Client.Replay(log[..handled]) && queue == log[handled..]
    modifies client, client.inventory, client.questEntries
    ensures client.Valid() && Faithful(t, client.View(), After(t, w, es, rules), s)
  {
    hide Run, After;
    client.Drain(queue);
    Replicas(t, w, es, rules, s, handled);
  }

  /** A new client object that is handed the whole log. */
  method Show(log: seq<Msg>, ghost t: Data, ghost w: World, ghost es: seq<Event>, ghost rules: Rules,
          ghost s: SessionId)
    returns (client: GameClient.GameClient)
    requires WellFormed(t) && Initial(w) && Run(t, w, es, rules) && rules.disciplined
    requires s in After(t, w, es, rules).sessions && After(t, w, es, rules).sessions[s].connected
    requires log == After(t, w, es, rules).sessions[s].sent
    ensures client.Valid() && fresh(client) && Faithful(t, client.View(), After(t, w, es, rules), s)
  {
    hide Run, After;
    client := new GameClient.GameClient();
    assert log[..0] == [] && log[0..] == log;
    CatchUp(client, log, t, w, es, rules, s, 0);
  }

  /** A started server object handles a disciplined run; a new client object then handles what session s was sent. */
  method ServeAndShow(server: GameServer.GameServer, es: seq<Event>, s: SessionId, ghost rules: Rules)
    returns (client: GameClient.GameClient)
    requires server.Valid() && WellFormed(server.tables) && Initial(server.World())
    requires Run(server.tables, server.World(), es, rules) && rules.disciplined
    requires s in After(server.tables, server.World(), es, rules).sessions
    requires After(server.tables, server.World(), es, rules).sessions[s].connected
    modifies server, server.npcs, server.sessions.Values
    ensures server.Valid() && client.Valid() && s in server.sessions
    ensures server.World() == After(server.tables, old(server.World()), es, rules)
    ensures Faithful(server.tables, client.View(), server.World(), s)
  {
    hide Run, After, Invariant, Initial, Faithful;
    ghost var t, w := server.tables, server.World();
    InitialInvariant(t, w, rules);
    server.Serve(es, rules);
    client := Show(server.sessions[s].sent, t, w, es, rules, s);
  }
}
