/** The connection descriptor a client derives from its configuration
    (ParallelDbClient::applyConfig, lib/paralleldbclient.cpp). */
module Descriptors {
  import opened Strings
  import opened DbConfigs
  import opened Connections

  /** The attributes of the ODBC connection strings. */
  function DriverAttribute(cfg: ConfigView): string { "DRIVER={" + cfg.odbcName + "}" }
  function ServerAttribute(cfg: ConfigView): string { "SERVER=" + cfg.ip.text + "," + Decimal(cfg.port) }
  function DatabaseAttribute(cfg: ConfigView): string { "DATABASE=" + cfg.dbname }
  function UidAttribute(cfg: ConfigView): string { "UID=" + cfg.username }
  function PwdAttribute(cfg: ConfigView): string { "PWD=" + cfg.password }

  /** No parameter holds the attribute separator ';'. */
  predicate NoSemicolons(cfg: ConfigView)
  {
    ';' !in cfg.odbcName && ';' !in cfg.ip.text && ';' !in cfg.dbname &&
    ';' !in cfg.username && ';' !in cfg.password
  }

  /** The attributes of the integrated-authentication string, in order. */
  function WinAuthAttributes(cfg: ConfigView): seq<string>
  {
    [DriverAttribute(cfg), ServerAttribute(cfg), DatabaseAttribute(cfg)]
  }

  /** The attributes of the SQL-authentication string, in order. */
  function SqlAuthAttributes(cfg: ConfigView): seq<string>
  {
    WinAuthAttributes(cfg) + [UidAttribute(cfg), PwdAttribute(cfg)]
  }

  /** The ODBC string of MSSQL with SQL Server authentication:
      DRIVER={odbc};SERVER=ip,port;DATABASE=db;UID=user;PWD=password. Split on ';' it yields those
      five attributes whenever no value holds a ';'. */
  function SqlAuthString(cfg: ConfigView): (s: string)
    ensures NoSemicolons(cfg) ==> Split(s, ';') == SqlAuthAttributes(cfg)
  {
    var d, v, b, u, p := DriverAttribute(cfg), ServerAttribute(cfg), DatabaseAttribute(cfg),
                         UidAttribute(cfg), PwdAttribute(cfg);
    AttributesHaveNoSemicolon(cfg);
    // Split at the ';' before UID: the head is the integrated-authentication string.
    var w, up := d + ";" + v + ";" + b, u + ";" + p;
    assert w == WinAuthString(cfg);
    assert d + ";" + v + ";" + b + ";" + u + ";" + p == w + [';'] + up;
    SplitAt(w, up, ';');
    SplitWhole(p, ";");
    SplitFirst(u, p, ";", [p]);
    d + ";" + v + ";" + b + ";" + u + ";" + p
  }

  /** The ODBC string of MSSQL with Windows (integrated) authentication:
      DRIVER={odbc};SERVER=ip,port;DATABASE=db. Split on ';' it yields those three attributes
      whenever no value holds a ';'. */
  function WinAuthString(cfg: ConfigView): (s: string)
    ensures NoSemicolons(cfg) ==> Split(s, ';') == WinAuthAttributes(cfg)
  {
    var d, v, b := DriverAttribute(cfg), ServerAttribute(cfg), DatabaseAttribute(cfg);
    AttributesHaveNoSemicolon(cfg);
    SplitWhole(b, ";");
    SplitFirst(v, b, ";", [b]);
    SplitFirst(d, v + ";" + b, ";", [v] + [b]);
    assert d + ";" + v + ";" + b == d + ";" + (v + ";" + b);
    assert WinAuthAttributes(cfg) == [d] + ([v] + [b]);
    d + ";" + v + ";" + b
  }

  lemma NoSemicolonIn(a: string, b: string)
    requires ';' !in a && ';' !in b
    ensures ';' !in a + b
  {
    assert forall i :: 0 <= i < |a + b| ==> (a + b)[i] == if i < |a| then a[i] else b[i - |a|];
  }

  lemma NoSemicolonInDecimal(n: nat)
    ensures ';' !in Decimal(n)
  {
  }

  /** No attribute holds a ';' when no parameter does. */
  lemma AttributesHaveNoSemicolon(cfg: ConfigView)
    ensures NoSemicolons(cfg) ==>
              ';' !in DriverAttribute(cfg) && ';' !in ServerAttribute(cfg) && ';' !in DatabaseAttribute(cfg) &&
              ';' !in UidAttribute(cfg) && ';' !in PwdAttribute(cfg)
  {
    if NoSemicolons(cfg) {
      NoSemicolonInDecimal(cfg.port);
      NoSemicolonIn("DRIVER={", cfg.odbcName);
      NoSemicolonIn("DRIVER={" + cfg.odbcName, "}");
      NoSemicolonIn("SERVER=", cfg.ip.text);
      NoSemicolonIn("SERVER=" + cfg.ip.text, ",");
      NoSemicolonIn("SERVER=" + cfg.ip.text + ",", Decimal(cfg.port));
      NoSemicolonIn("DATABASE=", cfg.dbname);
      NoSemicolonIn("UID=", cfg.username);
      NoSemicolonIn("PWD=", cfg.password);
    }
  }

  /** The integrated-authentication string is the SQL-authentication string without UID and PWD. */
  lemma WinAuthIsSqlAuthWithoutCredentials(cfg: ConfigView)
    ensures SqlAuthString(cfg) == WinAuthString(cfg) + ";UID=" + cfg.username + ";PWD=" + cfg.password
    ensures forall u, p :: WinAuthString(cfg.(username := u, password := p)) == WinAuthString(cfg)
  {
  }

  /** The descriptor each engine is meant to get from its configuration, overlaid on the
      connection's current parameters: SQLITE names the database file, MYSQL sets the discrete
      fields, the MSSQL modes set an ODBC string as the database name, MSSQL_LOCAL sets nothing. */
  function Configure(cfg: ConfigView, current: Descriptor): (d: Descriptor)
    ensures cfg.engine != MySql ==> d == current.(databaseName := d.databaseName)
    ensures cfg.engine == MssqlLocal ==> d == current
  {
    match cfg.engine
    case Sqlite => current.(databaseName := cfg.dbname)
    case MySql =>
      current.(hostName := cfg.ip.text, port := cfg.port, databaseName := cfg.dbname,
               userName := cfg.username, password := cfg.password)
    case MssqlSqlAuth => current.(databaseName := SqlAuthString(cfg))
    case MssqlWinAuth => current.(databaseName := WinAuthString(cfg))
    case MssqlLocal => current
  }

  /** Which configuration fields each engine's descriptor depends on: two configurations that agree
      on those fields give the same descriptor. */
  lemma ConfigureDependsOnlyOnItsFields(c1: ConfigView, c2: ConfigView, current: Descriptor)
    requires c1.engine == c2.engine
    requires c1.engine == Sqlite ==> c1.dbname == c2.dbname
    requires c1.engine == MySql ==>
               c1.(odbcName := c2.odbcName) == c2
    requires c1.engine == MssqlSqlAuth ==> c1 == c2
    requires c1.engine == MssqlWinAuth ==> c1.(username := c2.username, password := c2.password) == c2
    ensures Configure(c1, current) == Configure(c2, current)
  {
    if c1.engine == MssqlWinAuth {
      WinAuthIsSqlAuthWithoutCredentials(c1);
    }
  }

  /** The connection under a client's name once addDb and closeDb have run: the existing entry,
      closed, or a new entry with the engine's driver. */
  function Prepared(conns: map<string, Connection>, name: string, driver: string): (c: Connection)
    ensures !c.open
    ensures name !in conns ==> c == Connection(driver, false, EmptyDescriptor)
    ensures name in conns ==> c.driver == conns[name].driver && c.descriptor == conns[name].descriptor
  {
    if name in conns then conns[name].(open := false) else Connection(driver, false, EmptyDescriptor)
  }

  /** applyConfig as written, from the prepared connection, with `k` the index of the next open
      attempt on the connection. The SQLITE and MYSQL branches take the database name from
      getDbname(), which looks the connection up with QSqlDatabase::database(name) and so makes an
      open attempt, and which returns the name the connection already has. MYSQL sets host and
      port before that lookup and user and password after it. */
  function AppliedAsWritten(base: Connection, cfg: ConfigView, canOpen: Opener, k: nat): (c: Connection)
    requires !base.open
    ensures c.driver == base.driver
    ensures cfg.engine == Sqlite || cfg.engine == MySql ==>
              c.descriptor.databaseName == base.descriptor.databaseName
    ensures cfg.engine == Sqlite ==> c.open == canOpen(base.driver, base.descriptor, k)
    ensures cfg.engine == MySql ==>
              c.open == canOpen(base.driver, base.descriptor.(hostName := cfg.ip.text, port := cfg.port), k)
    ensures cfg.engine != Sqlite && cfg.engine != MySql ==> !c.open
  {
    match cfg.engine
    case Sqlite =>
      base.(open := canOpen(base.driver, base.descriptor, k))
    case MySql =>
      var b1 := base.(descriptor := base.descriptor.(hostName := cfg.ip.text, port := cfg.port));
      var b2 := b1.(open := canOpen(b1.driver, b1.descriptor, k));
      b2.(descriptor := b2.descriptor.(userName := cfg.username, password := cfg.password))
    case _ =>
      base.(descriptor := Configure(cfg, base.descriptor))
  }

  /** The native calls applyConfig makes: the open attempt hidden in getDbname(). */
  function ApplyConfigCalls(engine: DbEngine, name: string): seq<NativeCall>
  {
    if engine == Sqlite || engine == MySql then [OpenAttempt(name)] else []
  }

  /** applyConfig as evidently intended: the descriptor from the configuration, connection closed. */
  function AppliedIntended(base: Connection, cfg: ConfigView): (c: Connection)
    requires !base.open
    ensures !c.open && c.driver == base.driver
    ensures cfg.engine == Sqlite ==> c.descriptor.databaseName == cfg.dbname
    ensures cfg.engine == MySql ==>
              c.descriptor == base.descriptor.(hostName := cfg.ip.text, port := cfg.port, databaseName := cfg.dbname,
                                                userName := cfg.username, password := cfg.password)
    ensures cfg.engine == MssqlSqlAuth ==> c.descriptor.databaseName == SqlAuthString(cfg)
    ensures cfg.engine == MssqlWinAuth ==> c.descriptor.databaseName == WinAuthString(cfg)
    ensures cfg.engine == MssqlLocal ==> c == base
  {
    base.(descriptor := Configure(cfg, base.descriptor))
  }

  /** For the three MSSQL engines the code does what is intended, and makes no native call on
      any connection name. */
  lemma AsWrittenAgreesForMssql(base: Connection, cfg: ConfigView, canOpen: Opener, k: nat, name: string)
    requires !base.open
    requires cfg.engine != Sqlite && cfg.engine != MySql
    ensures AppliedAsWritten(base, cfg, canOpen, k) == AppliedIntended(base, cfg)
    ensures ApplyConfigCalls(cfg.engine, name) == []
  {
  }

  /** As written, a SQLITE client on a fresh connection never receives its configured database
      name, and the connection is left open whenever the driver can open it. */
  lemma SqliteIgnoresConfiguredName(cfg: ConfigView, canOpen: Opener)
    requires cfg.engine == Sqlite
    ensures var c := AppliedAsWritten(Prepared(map[], "main", DriverName(Sqlite)), cfg, canOpen, 0);
            c.descriptor.databaseName == [] &&
            (cfg.dbname != [] ==> c.descriptor.databaseName != AppliedIntended(Prepared(map[], "main", DriverName(Sqlite)), cfg).descriptor.databaseName) &&
            c.open == canOpen("QSQLITE", EmptyDescriptor, 0)
  {
  }

  /** As written, a MYSQL client's descriptor keeps the connection's previous database name,
      while host, port, user and password come from the configuration. */
  lemma MySqlKeepsPreviousName(base: Connection, cfg: ConfigView, canOpen: Opener, k: nat)
    requires !base.open
    requires cfg.engine == MySql
    ensures var c := AppliedAsWritten(base, cfg, canOpen, k);
            c.descriptor == base.descriptor.(hostName := cfg.ip.text, port := cfg.port,
                                              userName := cfg.username, password := cfg.password)
  {
  }
}
