/** One named database client (ParallelDbClient, lib/paralleldbclient.cpp): its bookkeeping on the
    process-wide connection table and its synchronous execute paths. */
module Clients {
  import opened DbConfigs
  import opened Connections
  import opened Descriptors

  /** dbError signals, by the failure that raised them. */
  datatype ClientError = OpenFailure | ExecutionFailure

  /** The arity check of the parameterised paths: equal, non-empty placeholder and value lists. */
  predicate Accepts(placeholders: seq<string>, values: seq<Bytes>)
    ensures Accepts(placeholders, values) <==> |placeholders| == |values| && |values| >= 1
  {
    !(|placeholders| != |values| || |placeholders| == 0 || |values| == 0)
  }

  /** The values bound after binding placeholder i to value i for every i in order: every
      placeholder is bound and nothing else is; a placeholder that occurs twice keeps the value
      bound last. */
  function Bindings(placeholders: seq<string>, values: seq<Bytes>): (bound: map<string, Bytes>)
    requires |placeholders| == |values|
    ensures forall p :: p in bound <==> p in placeholders
    decreases |placeholders|
  {
    if |placeholders| == 0 then map[]
    else
      var n := |placeholders| - 1;
      assert placeholders == placeholders[..n] + [placeholders[n]];
      Bindings(placeholders[..n], values[..n])[placeholders[n] := values[n]]
  }

  /** Placeholder i carries value i unless a later position names the same placeholder. */
  lemma {:induction false} BindingsAt(placeholders: seq<string>, values: seq<Bytes>, i: nat)
    requires |placeholders| == |values| && i < |placeholders|
    requires placeholders[i] !in placeholders[i + 1..]
    ensures placeholders[i] in Bindings(placeholders, values)
    ensures Bindings(placeholders, values)[placeholders[i]] == values[i]
    decreases |placeholders|
  {
    var n := |placeholders| - 1;
    if i < n {
      assert placeholders[n] in placeholders[i + 1..];
      assert placeholders[..n][i + 1..] == placeholders[i + 1..n];
      assert placeholders[i] !in placeholders[..n][i + 1..];
      BindingsAt(placeholders[..n], values[..n], i);
    }
  }

  /** With distinct placeholders, placeholder i is bound to value i for every i. */
  lemma BindingsDistinct(placeholders: seq<string>, values: seq<Bytes>)
    requires |placeholders| == |values|
    requires forall i, j :: 0 <= i < j < |placeholders| ==> placeholders[i] != placeholders[j]
    ensures forall i :: 0 <= i < |placeholders| ==>
              placeholders[i] in Bindings(placeholders, values) && Bindings(placeholders, values)[placeholders[i]] == values[i]
  {
    forall i | 0 <= i < |placeholders|
      ensures placeholders[i] in Bindings(placeholders, values) && Bindings(placeholders, values)[placeholders[i]] == values[i]
    {
      BindingsAt(placeholders, values, i);
    }
  }

  /** The binding loop: bindValue(placeholder, binaries[i++]) for each placeholder in turn. */
  method BindValues(placeholders: seq<string>, values: seq<Bytes>) returns (bound: map<string, Bytes>)
    requires |placeholders| == |values|
    ensures bound == Bindings(placeholders, values)
  {
    bound := map[];
    var i := 0;
    while i < |placeholders|
      invariant 0 <= i <= |placeholders|
      invariant bound == Bindings(placeholders[..i], values[..i])
    {
      assert placeholders[..i + 1][..i] == placeholders[..i];
      assert values[..i + 1][..i] == values[..i];
      bound := bound[placeholders[i] := values[i]];
      i := i + 1;
    }
    assert placeholders[..i] == placeholders && values[..i] == values;
  }

  /** The fetch loop: while (query.next()) ans.append(query.record()). */
  method FetchAll(cursor: seq<Record>) returns (ans: seq<Record>)
    ensures ans == cursor
  {
    ans := [];
    var i := 0;
    while i < |cursor|
      invariant 0 <= i <= |cursor|
      invariant ans == cursor[..i]
    {
      ans := ans + [cursor[i]];
      i := i + 1;
      assert cursor[..i] == cursor[..i - 1] + [cursor[i - 1]];
    }
  }

  /** The rows a statement outcome delivers: all of them on success, none on failure. */
  function RowsOf(r: ExecResult): seq<Record>
  {
    if r.Executed? then r.records else []
  }

  class DbClient {
    var connectionName: string
    const config: DbConfig
    const table: ConnectionTable
    /** dbError signals emitted so far. */
    var errors: seq<ClientError>

    ghost predicate Valid()
      reads this, config
    {
      config.Valid()
    }

    /** The client copies the configuration (operator=) and applies it. */
    constructor (connectionName: string, config: DbConfig, table: ConnectionTable)
      modifies table
      ensures Valid() && fresh(this.config)
      ensures this.connectionName == connectionName && this.table == table && errors == []
      ensures this.config.View() == old(config.View())
      ensures this.config.domainName == [] && this.config.hostErrors == []
      ensures table.conns == old(table.conns)[connectionName :=
                AppliedAsWritten(Prepared(old(table.conns), connectionName, DriverName(old(config.engine))),
                                 old(config.View()), table.canOpen, Attempts(old(table.calls), connectionName))]
      ensures table.calls == old(table.calls) + ApplyConfigCalls(old(config.engine), connectionName)
    {
      this.connectionName := connectionName;
      var own := new DbConfig();
      own.Assign(config);
      this.config := own;
      this.table := table;
      errors := [];
      new;
      ApplyConfig();
    }

    /** addDb: registers the connection name with the engine's driver, unless it is taken. */
    method AddDb()
      requires Valid()
      modifies table`conns
      ensures table.conns == if connectionName in old(table.conns) then old(table.conns)
                             else old(table.conns)[connectionName := Connection(config.GetDbDriver(), false, EmptyDescriptor)]
    {
      if !table.Contains(connectionName) {
        table.AddDatabase(config.GetDbDriver(), connectionName);
      }
    }

    /** removeDbConnection: removes the name if it is registered. */
    method RemoveDbConnection(name: string)
      modifies table`conns
      ensures table.conns == old(table.conns) - {name}
      ensures name !in old(table.conns) ==> table.conns == old(table.conns)
    {
      if table.Contains(name) {
        table.RemoveDatabase(name);
      }
    }

    /** closeDb: closes the connection if it is open. */
    method CloseDb()
      modifies table`conns
      ensures table.conns == if connectionName in old(table.conns) then
                               old(table.conns)[connectionName := old(table.conns)[connectionName].(open := false)]
                             else old(table.conns)
      ensures !table.IsOpen(connectionName)
    {
      if table.IsOpen(connectionName) {
        table.Close(connectionName);
      }
    }

    /** openDb: a lookup that opens, then one explicit open if still closed; a failure is signalled.
        An open connection is left alone. With `k` the open attempts already made on the name,
        the two attempts are attempts `k` and `k + 1`, so a retry may succeed where the lookup
        failed. */
    method OpenDb()
      modifies table, this`errors
      ensures var k := Attempts(old(table.calls), connectionName);
              var ok := OpensAfter(old(table.conns), connectionName, table.canOpen, k, 2);
              && table.conns == AfterAttempts(old(table.conns), connectionName, table.canOpen, k, 2)
              && table.calls == old(table.calls) + AttemptCalls(old(table.conns), connectionName, table.canOpen, k, 2)
              && (table.IsOpen(connectionName) <==> ok)
              && errors == old(errors) + (if ok then [] else [OpenFailure])
      ensures old(table.IsOpen(connectionName)) ==>
                table.conns == old(table.conns) && table.calls == old(table.calls) && errors == old(errors)
    {
      ghost var conns0, calls0 := table.conns, table.calls;
      LookupThenRetry(calls0, conns0, connectionName, table.canOpen);
      if connectionName in conns0 && conns0[connectionName].open {
        StaysOpen(conns0, connectionName, table.canOpen, Attempts(calls0, connectionName), 2);
      }
      table.Database(connectionName, true);
      if !table.IsOpen(connectionName) {
        var ok := table.Open(connectionName);
        if !ok {
          errors := errors + [OpenFailure];
        }
      }
    }

    /** getDbname: the database name the connection has, read through a lookup that opens it. */
    method GetDbname() returns (name: string)
      modifies table
      ensures var k := Attempts(old(table.calls), connectionName);
              && table.conns == AfterAttempts(old(table.conns), connectionName, table.canOpen, k, 1)
              && table.calls == old(table.calls) + AttemptCalls(old(table.conns), connectionName, table.canOpen, k, 1)
      ensures name == if connectionName in old(table.conns) then old(table.conns)[connectionName].descriptor.databaseName else []
    {
      table.Database(connectionName, true);
      name := table.DatabaseName(connectionName);
    }

    /** isOpen: whether the connection is open, read through a lookup that opens it. */
    method IsOpen() returns (open: bool)
      modifies table
      ensures var k := Attempts(old(table.calls), connectionName);
              && table.conns == AfterAttempts(old(table.conns), connectionName, table.canOpen, k, 1)
              && table.calls == old(table.calls) + AttemptCalls(old(table.conns), connectionName, table.canOpen, k, 1)
              && (open <==> OpensAfter(old(table.conns), connectionName, table.canOpen, k, 1))
    {
      table.Database(connectionName, true);
      open := table.IsOpen(connectionName);
    }

    /** applyConfig: register (if needed), close, then set the engine's parameters. */
    method ApplyConfig()
      requires Valid()
      modifies table
      ensures table.conns == old(table.conns)[connectionName :=
                AppliedAsWritten(Prepared(old(table.conns), connectionName, DriverName(config.engine)),
                                 config.View(), table.canOpen, Attempts(old(table.calls), connectionName))]
      ensures table.calls == old(table.calls) + ApplyConfigCalls(config.engine, connectionName)
    {
      AddDb();
      CloseDb();
      SetParameters();
    }

    /** The engine-specific part of applyConfig, on the registered, closed connection. */
    method SetParameters()
      requires connectionName in table.conns && !table.conns[connectionName].open
      modifies table
      ensures table.conns == old(table.conns)[connectionName :=
                AppliedAsWritten(old(table.conns)[connectionName], config.View(), table.canOpen,
                                 Attempts(old(table.calls), connectionName))]
      ensures table.calls == old(table.calls) + ApplyConfigCalls(config.engine, connectionName)
    {
      var cfg := config.View();
      if cfg.engine == Sqlite {
        OneAttempt(table.conns, connectionName, table.canOpen, Attempts(table.calls, connectionName));
        var n := GetDbname();
        table.SetDatabaseName(connectionName, n);
      } else if cfg.engine == MySql {
        SetMySqlParameters(cfg);
      } else if cfg.engine == MssqlSqlAuth {
        table.SetDatabaseName(connectionName, SqlAuthString(cfg));
      } else if cfg.engine == MssqlWinAuth {
        table.SetDatabaseName(connectionName, WinAuthString(cfg));
      }
    }

    /** The MYSQL branch of applyConfig: host and port, the database name read back through
        getDbname(), then user and password. */
    method SetMySqlParameters(cfg: ConfigView)
      requires cfg.engine == MySql
      requires connectionName in table.conns && !table.conns[connectionName].open
      modifies table
      ensures table.conns == old(table.conns)[connectionName :=
                AppliedAsWritten(old(table.conns)[connectionName], cfg, table.canOpen,
                                 Attempts(old(table.calls), connectionName))]
      ensures table.calls == old(table.calls) + [OpenAttempt(connectionName)]
    {
      ghost var k := Attempts(table.calls, connectionName);
      ghost var base := table.conns[connectionName];
      ghost var b1 := base.(descriptor := base.descriptor.(hostName := cfg.ip.text, port := cfg.port));
      ghost var b2 := b1.(open := table.canOpen(b1.driver, b1.descriptor, k));
      assert AppliedAsWritten(base, cfg, table.canOpen, k) ==
             b2.(descriptor := b2.descriptor.(userName := cfg.username, password := cfg.password));
      table.SetHostName(connectionName, cfg.ip.text);
      table.SetPort(connectionName, cfg.port);
      assert table.conns == old(table.conns)[connectionName := b1];
      OneAttempt(table.conns, connectionName, table.canOpen, k);
      var n := GetDbname();
      assert n == base.descriptor.databaseName;
      assert table.conns == old(table.conns)[connectionName := b2];
      table.SetDatabaseName(connectionName, n);
      assert table.conns == old(table.conns)[connectionName := b2];
      table.SetUserName(connectionName, cfg.username);
      table.SetPassword(connectionName, cfg.password);
    }

    /** setConnectionName: drop the old registration, take the new name, apply the configuration. */
    method SetConnectionName(name: string)
      requires Valid()
      modifies this`connectionName, table
      ensures connectionName == name
      ensures table.conns == (old(table.conns) - {old(connectionName)})[name :=
                AppliedAsWritten(Prepared(old(table.conns) - {old(connectionName)}, name, DriverName(config.engine)),
                                 config.View(), table.canOpen, Attempts(old(table.calls), name))]
      ensures old(connectionName) != name ==> old(connectionName) !in table.conns
      ensures name in table.conns
      ensures table.calls == old(table.calls) + ApplyConfigCalls(config.engine, name)
    {
      RemoveDbConnection(connectionName);
      connectionName := name;
      ApplyConfig();
    }

    /** setDbEngine: drop the registration and change the engine; nothing registers it again. */
    method SetDbEngine(engine: DbEngine)
      requires Valid()
      modifies table`conns, config`engine
      ensures Valid()
      ensures table.conns == old(table.conns) - {connectionName}
      ensures config.View() == old(config.View()).(engine := engine)
    {
      RemoveDbConnection(connectionName);
      config.SetDbEngine(engine);
    }

    /** The destructor: a lookup (which opens), close if open, then remove the registration. */
    method Destroy()
      modifies table
      ensures table.conns == old(table.conns) - {connectionName}
      ensures table.calls == old(table.calls) +
                AttemptCalls(old(table.conns), connectionName, table.canOpen, Attempts(old(table.calls), connectionName), 1)
    {
      table.Database(connectionName, true);
      if table.IsOpen(connectionName) {
        table.Close(connectionName);
      }
      table.RemoveDatabase(connectionName);
    }

    /** executeQuery: every fetched row in fetch order when the connection opens and the statement
        executes; otherwise no rows and a dbError. The lookup and openDb make up to three open
        attempts, numbered on from the `k` already made. */
    method ExecuteQuery(sql: string) returns (rows: seq<Record>)
      modifies table, this`errors
      ensures var k := Attempts(old(table.calls), connectionName);
              var after := AfterAttempts(old(table.conns), connectionName, table.canOpen, k, 3);
              var ok := OpensAfter(old(table.conns), connectionName, table.canOpen, k, 3);
              && table.conns == after
              && rows == (if ok then RowsOf(table.run(after[connectionName], sql, map[])) else [])
              && table.calls == old(table.calls) + AttemptCalls(old(table.conns), connectionName, table.canOpen, k, 3) +
                                (if ok then [Execute(connectionName, sql, map[])] else [])
              && errors == old(errors) +
                           (if !ok then [OpenFailure, OpenFailure]
                            else if table.run(after[connectionName], sql, map[]).ExecFailed? then [ExecutionFailure]
                            else [])
    {
      ghost var conns0, calls0 := table.conns, table.calls;
      ghost var k := Attempts(calls0, connectionName);
      Rounds(calls0, conns0, connectionName, table.canOpen, 1, 2);
      table.Database(connectionName, true);
      rows := [];
      OpenDb();
      assert table.conns == AfterAttempts(conns0, connectionName, table.canOpen, k, 3);
      assert table.calls == calls0 + AttemptCalls(conns0, connectionName, table.canOpen, k, 3);
      assert table.IsOpen(connectionName) <==> OpensAfter(conns0, connectionName, table.canOpen, k, 3);
      if table.IsOpen(connectionName) {
        var r := table.Exec(connectionName, sql, map[]);
        if r.Executed? {
          rows := FetchAll(r.records);
        } else {
          errors := errors + [ExecutionFailure];
        }
      } else {
        errors := errors + [OpenFailure];
      }
    }

    /** executeBindedQuery: mismatched or empty lists give no rows without binding or executing
        anything, after the lookup's open attempt; otherwise as executeQuery with placeholder i
        bound to value i. */
    method ExecuteBindedQuery(sql: string, placeholders: seq<string>, values: seq<Bytes>) returns (rows: seq<Record>)
      modifies table, this`errors
      ensures !Accepts(placeholders, values) ==>
                var k := Attempts(old(table.calls), connectionName);
                && rows == []
                && table.conns == AfterAttempts(old(table.conns), connectionName, table.canOpen, k, 1)
                && table.calls == old(table.calls) + AttemptCalls(old(table.conns), connectionName, table.canOpen, k, 1)
                && errors == old(errors)
      ensures Accepts(placeholders, values) ==>
                var k := Attempts(old(table.calls), connectionName);
                var after := AfterAttempts(old(table.conns), connectionName, table.canOpen, k, 3);
                var ok := OpensAfter(old(table.conns), connectionName, table.canOpen, k, 3);
                var bound := Bindings(placeholders, values);
                && table.conns == after
                && rows == (if ok then RowsOf(table.run(after[connectionName], sql, bound)) else [])
                && table.calls == old(table.calls) + AttemptCalls(old(table.conns), connectionName, table.canOpen, k, 3) +
                                  (if ok then [Execute(connectionName, sql, bound)] else [])
                && errors == old(errors) +
                             (if !ok then [OpenFailure, OpenFailure]
                              else if table.run(after[connectionName], sql, bound).ExecFailed? then [ExecutionFailure]
                              else [])
    {
      ghost var conns0, calls0 := table.conns, table.calls;
      ghost var k := Attempts(calls0, connectionName);
      Rounds(calls0, conns0, connectionName, table.canOpen, 1, 2);
      table.Database(connectionName, true);
      rows := [];
      if !Accepts(placeholders, values) {
        return;
      }
      OpenDb();
      assert table.conns == AfterAttempts(conns0, connectionName, table.canOpen, k, 3);
      assert table.calls == calls0 + AttemptCalls(conns0, connectionName, table.canOpen, k, 3);
      assert table.IsOpen(connectionName) <==> OpensAfter(conns0, connectionName, table.canOpen, k, 3);
      if table.IsOpen(connectionName) {
        var bound := BindValues(placeholders, values);
        var r := table.Exec(connectionName, sql, bound);
        if r.Executed? {
          rows := FetchAll(r.records);
        } else {
          errors := errors + [ExecutionFailure];
        }
      } else {
        errors := errors + [OpenFailure];
      }
    }

    /** executeNonQuery: true exactly when the connection opens and the statement executes. */
    method ExecuteNonQuery(sql: string) returns (succ: bool)
      modifies table, this`errors
      ensures var k := Attempts(old(table.calls), connectionName);
              var after := AfterAttempts(old(table.conns), connectionName, table.canOpen, k, 3);
              var ok := OpensAfter(old(table.conns), connectionName, table.canOpen, k, 3);
              && table.conns == after
              && (succ <==> ok && table.run(after[connectionName], sql, map[]).Executed?)
              && table.calls == old(table.calls) + AttemptCalls(old(table.conns), connectionName, table.canOpen, k, 3) +
                                (if ok then [Execute(connectionName, sql, map[])] else [])
              && errors == old(errors) + (if !ok then [OpenFailure, OpenFailure] else if succ then [] else [ExecutionFailure])
    {
      ghost var conns0, calls0 := table.conns, table.calls;
      ghost var k := Attempts(calls0, connectionName);
      Rounds(calls0, conns0, connectionName, table.canOpen, 1, 2);
      table.Database(connectionName, true);
      succ := false;
      OpenDb();
      assert table.conns == AfterAttempts(conns0, connectionName, table.canOpen, k, 3);
      assert table.calls == calls0 + AttemptCalls(conns0, connectionName, table.canOpen, k, 3);
      assert table.IsOpen(connectionName) <==> OpensAfter(conns0, connectionName, table.canOpen, k, 3);
      if table.IsOpen(connectionName) {
        var r := table.Exec(connectionName, sql, map[]);
        if r.Executed? {
          succ := true;
        } else {
          errors := errors + [ExecutionFailure];
        }
      } else {
        errors := errors + [OpenFailure];
      }
    }

    /** executeBindedNonQuery: false for mismatched or empty lists without binding or executing
        anything, after the lookup's open attempt; otherwise as executeNonQuery with placeholder i
        bound to value i. */
    method ExecuteBindedNonQuery(sql: string, placeholders: seq<string>, values: seq<Bytes>) returns (succ: bool)
      modifies table, this`errors
      ensures !Accepts(placeholders, values) ==>
                var k := Attempts(old(table.calls), connectionName);
                && !succ
                && table.conns == AfterAttempts(old(table.conns), connectionName, table.canOpen, k, 1)
                && table.calls == old(table.calls) + AttemptCalls(old(table.conns), connectionName, table.canOpen, k, 1)
                && errors == old(errors)
      ensures Accepts(placeholders, values) ==>
                var k := Attempts(old(table.calls), connectionName);
                var after := AfterAttempts(old(table.conns), connectionName, table.canOpen, k, 3);
                var ok := OpensAfter(old(table.conns), connectionName, table.canOpen, k, 3);
                var bound := Bindings(placeholders, values);
                && table.conns == after
                && (succ <==> ok && table.run(after[connectionName], sql, bound).Executed?)
                && table.calls == old(table.calls) + AttemptCalls(old(table.conns), connectionName, table.canOpen, k, 3) +
                                  (if ok then [Execute(connectionName, sql, bound)] else [])
                && errors == old(errors) + (if !ok then [OpenFailure, OpenFailure] else if succ then [] else [ExecutionFailure])
    {
      ghost var conns0, calls0 := table.conns, table.calls;
      ghost var k := Attempts(calls0, connectionName);
      Rounds(calls0, conns0, connectionName, table.canOpen, 1, 2);
      table.Database(connectionName, true);
      succ := false;
      if !Accepts(placeholders, values) {
        return;
      }
      OpenDb();
      assert table.conns == AfterAttempts(conns0, connectionName, table.canOpen, k, 3);
      assert table.calls == calls0 + AttemptCalls(conns0, connectionName, table.canOpen, k, 3);
      assert table.IsOpen(connectionName) <==> OpensAfter(conns0, connectionName, table.canOpen, k, 3);
      if table.IsOpen(connectionName) {
        var bound := BindValues(placeholders, values);
        var r := table.Exec(connectionName, sql, bound);
        if r.Executed? {
          succ := true;
        } else {
          errors := errors + [ExecutionFailure];
        }
      } else {
        errors := errors + [OpenFailure];
      }
    }
  }
}
