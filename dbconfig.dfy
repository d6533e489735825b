/** Connection parameters of one database client (lib/dbconfig.h, lib/dbconfig.cpp). */
module DbConfigs {
  import opened Strings

  /** The five engines a client can talk to. */
  datatype DbEngine = Sqlite | MySql | MssqlSqlAuth | MssqlWinAuth | MssqlLocal

  /** A quint16 port number. */
  type Port = p: int | 0 <= p < 0x1_0000

  /** A QHostAddress, through its textual form (QHostAddress::toString). */
  datatype HostAddress = HostAddress(text: string)

  /** DbConstants::LOCALHOST and DbConstants::DEFAULT_PORT. */
  const Localhost: string := "127.0.0.1"
  const DefaultPort: Port := 6969
  /** The default ODBC driver label of the full constructor. */
  const DefaultOdbcName: string := "SQL Server"

  /** What a host-name lookup (QHostInfo::fromName) reports. */
  datatype HostLookupError = NoError | HostNotFound | UnknownError
  datatype HostInfo = HostInfo(addresses: seq<HostAddress>, error: HostLookupError, errorString: string)

  /** Name resolution is I/O; the model takes it as a function from name to lookup result. */
  type Resolver = string -> HostInfo

  /** The hostError signal. */
  datatype HostErrorEvent = HostError(msg: string, errorString: string)

  /** The seven parameters that operator= copies and that the connection descriptor is built from. */
  datatype ConfigView = ConfigView(
    engine: DbEngine,
    ip: HostAddress,
    port: Port,
    dbname: string,
    username: string,
    password: string,
    odbcName: string)

  /** The driver table that initDbDrivers fills in; MSSQL_LOCAL has no entry. */
  const DriverTable: map<DbEngine, string> :=
    map[Sqlite := "QSQLITE", MySql := "QMYSQL", MssqlSqlAuth := "QODBC3", MssqlWinAuth := "QODBC3"]

  /** The native driver identifier of each engine, with the empty string where the table has no entry. */
  function DriverName(e: DbEngine): (r: string)
    ensures e in DriverTable ==> r == DriverTable[e]
    ensures e !in DriverTable ==> r == []
  {
    match e
    case Sqlite => "QSQLITE"
    case MySql => "QMYSQL"
    case MssqlSqlAuth => "QODBC3"
    case MssqlWinAuth => "QODBC3"
    case MssqlLocal => ""
  }

  /** Fails ("not a domain") exactly for text that splits on '.' into four parts whose
      concatenation matches the regular expression \d*. Without split and join: text is a
      literal address exactly when it holds three dots and nothing but dots and digits, so empty
      parts are allowed and no part is range-checked. */
  function IsDomainAddress(value: string): (r: bool)
    ensures !r <==> Count(value, '.') == 3 && forall i :: 0 <= i < |value| ==> value[i] == '.' || IsDigit(value[i])
  {
    var parts := Split(value, '.');
    SplitLength(value, '.');
    ConcatSplit(value, '.');
    AllDigitsWithout(value, '.');
    if |parts| != 4 then true
    else !AllDigits(Join(parts, []))
  }

  lemma DigitsHaveNoDot(x: string)
    requires AllDigits(x)
    ensures '.' !in x
  {
  }

  /** Any four digit strings joined by dots are an address: parts may be empty and are not
      range-checked. */
  lemma DottedDigitsIsAddress(a: string, b: string, c: string, d: string)
    requires AllDigits(a) && AllDigits(b) && AllDigits(c) && AllDigits(d)
    ensures !IsDomainAddress(a + ['.'] + b + ['.'] + c + ['.'] + d)
  {
    var s := a + ['.'] + b + ['.'] + c + ['.'] + d;
    DigitsHaveNoDot(a);
    DigitsHaveNoDot(b);
    DigitsHaveNoDot(c);
    DigitsHaveNoDot(d);
    assert s == a + ['.'] + (b + ['.'] + (c + ['.'] + d));
    SplitAt(a, b + ['.'] + (c + ['.'] + d), '.');
    SplitAt(b, c + ['.'] + d, '.');
    SplitAt(c, d, '.');
    SplitNoSep(a, '.');
    SplitNoSep(b, '.');
    SplitNoSep(c, '.');
    SplitNoSep(d, '.');
    assert Split(s, '.') == [a] + ([b] + ([c] + [d]));
    JoinEmptyCons(a, [b] + ([c] + [d]));
    JoinEmptyCons(b, [c] + [d]);
    JoinEmptyCons(c, [d]);
    JoinEmptyCons(d, []);
    AllDigitsAppend(c, d + []);
    AllDigitsAppend(b, c + (d + []));
    AllDigitsAppend(a, b + (c + (d + [])));
  }

  /** A dotted quad is an address even when a part is out of the 0-255 range. */
  lemma OutOfRangeQuadIsAddress(s: string)
    requires s == "999.0.0.1"
    ensures !IsDomainAddress(s)
  {
    DottedDigitsIsAddress("999", "0", "0", "1");
    assert s == "999" + ['.'] + "0" + ['.'] + "0" + ['.'] + "1";
  }

  /** Three dots alone are an address: empty parts are accepted. */
  lemma EmptyPartsQuadIsAddress(s: string)
    requires s == "..."
    ensures !IsDomainAddress(s)
  {
    var parts := Split(s, '.');
    SplitAt([], "..", '.');
    SplitAt([], ".", '.');
    SplitAt([], [], '.');
    assert s == [] + ['.'] + "..";
    assert ".." == [] + ['.'] + ".";
    assert "." == [] + ['.'] + [];
    assert parts == [[], [], [], []];
    assert Join(parts[2..], []) == [] + [] + [];
    assert Join(parts[1..], []) == [] + [] + [];
    assert Join(parts, []) == [] + [] + [];
  }

  /** A host name is a domain. */
  lemma HostNameIsDomain(s: string)
    requires s == "localhost"
    ensures IsDomainAddress(s)
  {
    SplitNoSep(s, '.');
  }

  /** Three dotted numbers are a domain, not an address. */
  lemma ShortQuadIsDomain(s: string)
    requires s == "10.0.1"
    ensures IsDomainAddress(s)
  {
    var parts := Split(s, '.');
    SplitAt("10", "0.1", '.');
    SplitAt("0", "1", '.');
    SplitNoSep("10", '.');
    SplitNoSep("0", '.');
    SplitNoSep("1", '.');
    assert s == "10" + ['.'] + "0.1";
    assert "0.1" == "0" + ['.'] + "1";
    assert parts == ["10", "0", "1"];
  }

  class DbConfig {
    var engine: DbEngine
    var ip: HostAddress
    var port: Port
    var dbname: string
    var username: string
    var password: string
    var odbcName: string
    /** The domain the address was resolved from, or empty. */
    var domainName: string
    /** mDrivers, filled by initDbDrivers. */
    var drivers: map<DbEngine, string>
    /** hostError signals emitted so far. */
    var hostErrors: seq<HostErrorEvent>

    ghost predicate Valid()
      reads this
    {
      drivers == DriverTable
    }

    /** The seven connection parameters as one value. */
    function View(): ConfigView
      reads this
    {
      ConfigView(engine, ip, port, dbname, username, password, odbcName)
    }

    /** Default configuration: SQLITE on 127.0.0.1:6969, database "none", user and password
        "anonymous"; the ODBC label is left empty. */
    constructor ()
      ensures Valid()
      ensures View() == ConfigView(Sqlite, HostAddress(Localhost), DefaultPort, "none", "anonymous", "anonymous", "")
      ensures domainName == [] && hostErrors == []
    {
      // The inline setters of the default constructor, field by field.
      engine := Sqlite;
      ip := HostAddress(Localhost);
      domainName := [];
      port := DefaultPort;
      dbname := "none";
      username := "anonymous";
      password := "anonymous";
      odbcName := [];
      drivers := map[];
      hostErrors := [];
      new;
      InitDbDrivers();
    }

    /** Full configuration; the address is resolved as by SetIpFromDomain. */
    constructor Full(resolve: Resolver, engine: DbEngine, address: string, port: Port, dbname: string,
                     username: string, password: string, odbcName: string := DefaultOdbcName)
      ensures Valid()
      ensures this.engine == engine && this.port == port && this.dbname == dbname
      ensures this.username == username && this.password == password && this.odbcName == odbcName
      ensures var info := resolve(address);
              if |info.addresses| > 0 then
                ip == info.addresses[0] && domainName == (if IsDomainAddress(address) then address else [])
              else
                ip == HostAddress(Localhost) && domainName == []
      ensures hostErrors == LookupFailureEvents(address, resolve(address))
    {
      this.engine := engine;
      ip := HostAddress(Localhost);
      this.port := port;
      this.dbname := dbname;
      this.username := username;
      this.password := password;
      this.odbcName := odbcName;
      domainName := [];
      drivers := map[];
      hostErrors := [];
      new;
      SetIpFromDomain(address, resolve);
      InitDbDrivers();
    }

    /** operator=: copies exactly the seven connection parameters. */
    method Assign(conf: DbConfig)
      modifies this`engine, this`ip, this`port, this`dbname, this`username, this`password, this`odbcName
      ensures View() == old(conf.View())
    {
      engine := conf.engine;
      ip := conf.ip;
      port := conf.port;
      dbname := conf.dbname;
      username := conf.username;
      password := conf.password;
      odbcName := conf.odbcName;
    }

    method InitDbDrivers()
      modifies this`drivers
      ensures drivers ==
        old(drivers)[Sqlite := "QSQLITE"][MySql := "QMYSQL"][MssqlSqlAuth := "QODBC3"][MssqlWinAuth := "QODBC3"]
      ensures old(drivers) == map[] ==> Valid()
    {
      drivers := drivers[Sqlite := "QSQLITE"];
      drivers := drivers[MySql := "QMYSQL"];
      drivers := drivers[MssqlSqlAuth := "QODBC3"];
      drivers := drivers[MssqlWinAuth := "QODBC3"];
    }

    /** QMap::value: the entry for the current engine, or the empty string. */
    function GetDbDriver(): (r: string)
      reads this
      requires Valid()
      ensures r == DriverName(engine)
    {
      if engine in drivers then drivers[engine] else []
    }

    /** The getters return the parameters of the configuration view. */
    function GetDbEngine(): (r: DbEngine) reads this ensures r == View().engine { engine }
    function GetIp(): (r: HostAddress) reads this ensures r == View().ip { ip }
    function GetPort(): (r: Port) reads this ensures r == View().port { port }
    function GetDbname(): (r: string) reads this ensures r == View().dbname { dbname }
    function GetUsername(): (r: string) reads this ensures r == View().username { username }
    function GetPassword(): (r: string) reads this ensures r == View().password { password }
    function GetOdbcName(): (r: string) reads this ensures r == View().odbcName { odbcName }

    method SetDbEngine(engine: DbEngine)
      modifies this`engine
      ensures GetDbEngine() == engine
      ensures View() == old(View()).(engine := engine)
    {
      this.engine := engine;
    }

    /** setIp(QHostAddress) as lib/dbconfig.cpp defines it: the domain is cleared as well. */
    method SetIp(ip: HostAddress)
      modifies this`ip, this`domainName
      ensures GetIp() == ip && domainName == []
      ensures View() == old(View()).(ip := ip)
    {
      this.ip := ip;
      domainName := [];
    }

    method SetPort(port: Port)
      modifies this`port
      ensures GetPort() == port
      ensures View() == old(View()).(port := port)
    {
      this.port := port;
    }

    method SetDbname(dbname: string)
      modifies this`dbname
      ensures GetDbname() == dbname
      ensures View() == old(View()).(dbname := dbname)
    {
      this.dbname := dbname;
    }

    method SetUsername(username: string)
      modifies this`username
      ensures GetUsername() == username
      ensures View() == old(View()).(username := username)
    {
      this.username := username;
    }

    method SetPassword(password: string)
      modifies this`password
      ensures GetPassword() == password
      ensures View() == old(View()).(password := password)
    {
      this.password := password;
    }

    method SetOdbcName(odbcName: string)
      modifies this`odbcName
      ensures GetOdbcName() == odbcName
      ensures View() == old(View()).(odbcName := odbcName)
    {
      this.odbcName := odbcName;
    }

    /** verifyDomain: succeeds iff the lookup yields an address; on failure with
        HostNotFound or UnknownError a hostError is emitted, with NoError nothing is. */
    method VerifyDomain(name: string, resolve: Resolver) returns (succ: bool)
      modifies this`hostErrors
      ensures succ <==> |resolve(name).addresses| > 0
      ensures hostErrors == old(hostErrors) + LookupFailureEvents(name, resolve(name))
    {
      succ := true;
      var info := resolve(name);
      if |info.addresses| == 0 {
        match info.error {
        case NoError =>
        case HostNotFound =>
          hostErrors := hostErrors + [HostError(LookupWarning(name), info.errorString)];
        case UnknownError =>
          hostErrors := hostErrors + [HostError(LookupWarning(name), info.errorString)];
        }
        succ := false;
      }
    }

    /** setIp(QString): the first resolved address, or loopback when nothing resolves;
        the domain is kept only when the text is not a literal dotted quad. */
    method SetIpFromDomain(name: string, resolve: Resolver)
      modifies this`ip, this`domainName, this`hostErrors
      ensures var info := resolve(name);
              if |info.addresses| > 0 then
                ip == info.addresses[0] && domainName == (if IsDomainAddress(name) then name else [])
              else
                ip == HostAddress(Localhost) && domainName == []
      ensures hostErrors == old(hostErrors) + LookupFailureEvents(name, resolve(name))
    {
      var info := resolve(name);
      var ok := VerifyDomain(name, resolve);
      if ok {
        ip := info.addresses[0];
        if IsDomainAddress(name) {
          domainName := name;
        } else {
          domainName := [];
        }
      } else {
        SetIp(HostAddress(Localhost));
      }
    }
  }

  /** The text of the hostError warning (no space between the name and "domain"). */
  function LookupWarning(name: string): string
  {
    "WARNING: " + name + "domain name or IP is not valid."
  }

  /** The hostError signals one verifyDomain call emits for a lookup result. */
  function LookupFailureEvents(name: string, info: HostInfo): (events: seq<HostErrorEvent>)
    ensures |events| <= 1
    ensures |events| == 1 <==> |info.addresses| == 0 && info.error != NoError
    ensures |events| == 1 ==> events[0].errorString == info.errorString
  {
    if |info.addresses| == 0 && info.error != NoError
    then [HostError(LookupWarning(name), info.errorString)]
    else []
  }
}
