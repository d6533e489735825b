/** The registry of named clients (ParallelDbFactory, lib/paralleldbfactory.cpp). */
module Factory {
  import opened DbConfigs
  import opened Connections
  import opened Descriptors
  import opened Clients

  /** The registry's signals: requestedDberror on a missed lookup, warning on a replacement. */
  datatype FactoryEvent = RequestedDbError(msg: string) | Warning(msg: string)

  function NotFoundMessage(name: string): string
  {
    "Database " + name + " does not exist."
  }

  function ReplacedMessage(name: string): string
  {
    "Database client " + name + " exists. It will be removed" + " and replaced with a new one."
  }

  /** Dropping an entry and storing a new one under the same key is one map update. */
  lemma ReplaceEntry<K, V>(m: map<K, V>, k: K, v: V)
    ensures (m - {k})[k := v] == m[k := v]
  {
    assert (m - {k})[k := v].Keys == m[k := v].Keys;
  }

  /** Storing under a key grows the map by one exactly when the key was new. */
  lemma InsertSize<K, V>(m: map<K, V>, k: K, v: V)
    ensures |m[k := v]| == if k in m then |m| else |m| + 1
  {
    if k in m {
      assert m[k := v].Keys == m.Keys;
    } else {
      assert m[k := v].Keys == m.Keys + {k};
    }
  }

  class DbFactory {
    var clients: map<string, DbClient>
    var events: seq<FactoryEvent>
    /** The connection table every client of this registry registers its connection in. */
    const table: ConnectionTable

    constructor (table: ConnectionTable)
      ensures clients == map[] && events == [] && this.table == table
    {
      clients := map[];
      events := [];
      this.table := table;
    }

    /** getDbClient: the stored client, or null and a requestedDberror. */
    method GetDbClient(name: string) returns (client: DbClient?)
      modifies this`events
      ensures name in clients ==> client == clients[name] && events == old(events)
      ensures name !in clients ==> client == null && events == old(events) + [RequestedDbError(NotFoundMessage(name))]
    {
      client := null;
      if name in clients {
        client := clients[name];
      } else {
        events := events + [RequestedDbError(NotFoundMessage(name))];
      }
    }

    /** createDbClient: an existing entry is dropped with a warning (the client itself is not
        destroyed), then a new client is built and stored under the name. */
    method CreateDbClient(name: string, connectionName: string, config: DbConfig)
      modifies this`clients, this`events, table
      ensures name in clients && fresh(clients[name])
      ensures clients[name].connectionName == connectionName && clients[name].table == table
      ensures clients[name].config.View() == old(config.View()) && clients[name].Valid()
      ensures clients == old(clients)[name := clients[name]]
      ensures |clients| == if name in old(clients) then |old(clients)| else |old(clients)| + 1
      ensures events == old(events) + if name in old(clients) then [Warning(ReplacedMessage(name))] else []
      ensures table.conns == old(table.conns)[connectionName :=
                AppliedAsWritten(Prepared(old(table.conns), connectionName, DriverName(old(config.engine))),
                                 old(config.View()), table.canOpen, Attempts(old(table.calls), connectionName))]
      ensures table.calls == old(table.calls) + ApplyConfigCalls(old(config.engine), connectionName)
      ensures clients[name].errors == [] && clients[name].config.domainName == [] && clients[name].config.hostErrors == []
    {
      ghost var before := clients;
      if name in clients {
        clients := clients - {name};
        events := events + [Warning(ReplacedMessage(name))];
      }
      var client := new DbClient(connectionName, config, table);
      clients := clients[name := client];
      ReplaceEntry(before, name, client);
      InsertSize(before, name, client);
    }

    /** removeDbClient: whether the name was present; it is absent afterwards. */
    method RemoveDbClient(name: string) returns (succ: bool)
      modifies this`clients
      ensures succ <==> name in old(clients)
      ensures clients == old(clients) - {name}
      ensures !succ ==> clients == old(clients)
      ensures |clients| == if succ then |old(clients)| - 1 else |old(clients)|
    {
      succ := false;
      if name in clients {
        clients := clients - {name};
        succ := true;
      }
    }
  }
}
