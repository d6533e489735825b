# parallel-db-client: a Dafny model of its core

parallel-db-client is a Qt library that gives each named database client its own connection to
SQLite, MySQL or Microsoft SQL Server. The library has three core parts:

- `DbConfig` holds the parameters of one client: engine, address, port, database name,
  credentials and ODBC driver label.
- `ParallelDbClient` registers a named connection in Qt's process-wide connection table,
  derives the connection's parameters from its `DbConfig`, and runs queries on it.
- `ParallelDbFactory` keeps a registry of clients by name.

The model has six modules:

- `Strings` (`strings.dfy`): Qt's `QString::split` (empty parts kept) and `join`, decimal
  rendering of a port number, and the facts about them the proofs need.
- `DbConfigs` (`dbconfig.dfy`): the engines, the driver table, the address classifier
  `isDomainAddress`, host resolution, and the `DbConfig` class with its setters and getters.
- `Connections` (`connections.dfy`): the part of Qt's `QSqlDatabase` connection table the client
  relies on. Each entry has a driver, an open flag and a descriptor (database name, host, port,
  user, password). A log records open attempts and statement executions, in order.
- `Descriptors` (`descriptors.dfy`): the ODBC connection strings of the two MSSQL modes, and the
  descriptor each engine gets, both as the code writes it and as intended.
- `Clients` (`client.dfy`): the `DbClient` class. It covers registration, opening, closing,
  applying the configuration, renaming, the destructor, and the four synchronous execute paths:
  plain and parameterised, query and non-query.
- `Factory` (`factory.dfy`): the `DbFactory` registry.

Two facts about Qt drive the model:

- `QSqlDatabase::database(name)` opens a closed connection by default. The execute paths,
  `isOpen`, the destructor and `getDbname()` all go through it, so each of them can make an
  open attempt. The model records that attempt in the table's call log.
- The native driver is not modelled. Whether an open succeeds, and what a statement returns,
  come from two oracle functions fixed when the table is created (`canOpen` and `run`).
  `canOpen` is given the driver, the descriptor and the number of open attempts already made
  on that connection name. So an attempt can fail and a later retry succeed, as when a server
  comes up in between. Name resolution (`QHostInfo::fromName`) is a `Resolver` function
  passed in as a parameter.

Three behaviours of the code are easy to misread; the model follows the code:

- `setDbEngine` removes the connection registration and never registers it again. Until
  applyConfig or setConnectionName registers it again, the plain execute paths and accepted
  parameterised calls find no connection, make no open attempt and raise two dbErrors; calls
  whose counts differ raise none.
- The parameterised execute paths look the connection up, and so try to open it, before they
  check the placeholder and value lists (lib/paralleldbclient.cpp:436 and :529). Rejected lists
  therefore still cost one open attempt, though nothing is bound or executed and no dbError is
  raised.
- The registry drops a replaced or removed client without destroying it. The client's
  connection stays registered.

## Model

| member | source | states |
|---|---|---|
| Strings.Split | lib/dbconfig.cpp:104 | splitting always yields at least one part, and no part holds the separator |
| Strings.JoinSplit | lib/dbconfig.cpp:104-110 | joining the parts of a split with the separator gives back the original text |
| Strings.SplitNoSep | lib/dbconfig.cpp:104 | text without the separator splits into itself alone |
| Strings.SplitAt | lib/dbconfig.cpp:104 | splitting `a + sep + b` is splitting `a` followed by splitting `b` |
| Strings.SplitLength | lib/dbconfig.cpp:104-105 | the number of parts is the number of separators plus one |
| Strings.ConcatSplit | lib/dbconfig.cpp:104-110 | joining the parts with the empty string is the text with the separators removed |
| Strings.AllDigitsWithout | lib/dbconfig.cpp:108-111 | the text without separators is all digits exactly when every character is a separator or a digit |
| Strings.Decimal | lib/paralleldbclient.cpp:209-216 | a port renders as a non-empty string of decimal digits without a leading zero |
| Strings.DecimalRoundTrip | lib/paralleldbclient.cpp:209-216 | reading the rendered digits back gives the port number |
| DbConfigs.IsDomainAddress | lib/dbconfig.cpp:102-114 | false (a literal address) exactly when the text holds three dots and nothing but dots and ASCII digits; so empty parts are allowed and no part is range-checked |
| DbConfigs.DriverName | lib/dbconfig.cpp:58-64 | the driver of each engine agrees with the fixed table: SQLITE→QSQLITE, MYSQL→QMYSQL, both ODBC modes→QODBC3, and the empty string for MSSQL_LOCAL, which has no entry |
| Strings.Join | lib/dbconfig.cpp:109 | joining parts that hold no one-character separator and splitting again gives the parts back |
| DbConfigs.DottedDigitsIsAddress | lib/dbconfig.cpp:102-114 | any four digit strings joined by dots are classified as an address, including empty and out-of-range parts |
| DbConfigs.OutOfRangeQuadIsAddress | lib/dbconfig.cpp:102-114 | "999.0.0.1" is classified as an address, not a domain |
| DbConfigs.EmptyPartsQuadIsAddress | lib/dbconfig.cpp:102-114 | "..." is classified as an address |
| DbConfigs.HostNameIsDomain | lib/dbconfig.cpp:102-114 | "localhost" (one part) is a domain |
| DbConfigs.ShortQuadIsDomain | lib/dbconfig.cpp:102-114 | "10.0.1" (three parts) is a domain |
| DbConfigs.LookupFailureEvents | lib/dbconfig.cpp:117-143 | a host lookup emits at most one hostError; it emits one exactly when there is no address and the error is HostNotFound or UnknownError; that event carries the resolver's error string |
| DbConfigs.DbConfig.constructor | lib/dbconfig.cpp:3-12 | the default configuration: SQLITE, 127.0.0.1, port 6969, database "none", user and password "anonymous", with the driver table filled in |
| DbConfigs.DbConfig.Full | lib/dbconfig.cpp:15-35 | engine, port, database name, credentials and ODBC label are taken as given (the label defaults to "SQL Server"); the address is resolved as setIp(QString) does; the resulting hostError events are recorded |
| DbConfigs.DbConfig.Assign | lib/dbconfig.cpp:38-49 | copies the seven parameters, so the two configurations then have equal views |
| DbConfigs.DbConfig.InitDbDrivers | lib/dbconfig.cpp:58-64 | adds SQLITE→QSQLITE, MYSQL→QMYSQL and both MSSQL modes→QODBC3 to the driver table; on an empty table this gives exactly the driver table |
| DbConfigs.DbConfig.GetDbDriver | lib/dbconfig.cpp:67-70 | the engine's driver name; MSSQL_LOCAL has no entry and gets the empty string |
| DbConfigs.DbConfig.GetDbEngine | lib/dbconfig.h:45 | returns the engine of the configuration; right after SetDbEngine it is the engine just set |
| DbConfigs.DbConfig.GetIp | lib/dbconfig.h:46 | returns the address of the configuration; right after SetIp it is the address just set |
| DbConfigs.DbConfig.GetPort | lib/dbconfig.h:47 | returns the port of the configuration; right after SetPort it is the port just set |
| DbConfigs.DbConfig.GetDbname | lib/dbconfig.h:48 | returns the database name of the configuration; right after SetDbname it is the name just set |
| DbConfigs.DbConfig.GetUsername | lib/dbconfig.h:49 | returns the user name of the configuration; right after SetUsername it is the name just set |
| DbConfigs.DbConfig.GetPassword | lib/dbconfig.h:50 | returns the password of the configuration; right after SetPassword it is the password just set |
| DbConfigs.DbConfig.GetOdbcName | lib/dbconfig.h:51 | returns the ODBC label of the configuration; right after SetOdbcName it is the label just set |
| DbConfigs.DbConfig.SetDbEngine | lib/dbconfig.h:36 | the engine is replaced and every other parameter is unchanged |
| DbConfigs.DbConfig.SetIp | lib/dbconfig.cpp:95-99 | the address is replaced, the remembered domain is cleared, and every other parameter is unchanged |
| DbConfigs.DbConfig.SetPort | lib/dbconfig.h:39 | the port is replaced and every other parameter is unchanged |
| DbConfigs.DbConfig.SetDbname | lib/dbconfig.h:40 | the database name is replaced and every other parameter is unchanged |
| DbConfigs.DbConfig.SetUsername | lib/dbconfig.h:41 | the user name is replaced and every other parameter is unchanged |
| DbConfigs.DbConfig.SetPassword | lib/dbconfig.h:42 | the password is replaced and every other parameter is unchanged |
| DbConfigs.DbConfig.SetOdbcName | lib/dbconfig.h:43 | the ODBC label is replaced and every other parameter is unchanged |
| DbConfigs.DbConfig.VerifyDomain | lib/dbconfig.cpp:117-143 | succeeds exactly when the lookup returns an address; otherwise emits the hostError events described for LookupFailureEvents |
| DbConfigs.DbConfig.SetIpFromDomain | lib/dbconfig.cpp:73-92 | on a resolvable name, the first resolved address, with the name kept as the domain only when it is not a literal address; otherwise 127.0.0.1 and no domain |
| Connections.OpenAttempts | lib/paralleldbclient.cpp:253-262 | a run of `n` logged open attempts on one name has length `n` and holds only attempts on that name |
| Connections.AttemptsAfter | lib/paralleldbclient.cpp:253-262 | logging `n` open attempts on a name raises that name's attempt count by `n` |
| Connections.Tries | lib/paralleldbclient.cpp:253-262 | at most `n` attempts are made, all `n` when none succeeds, and otherwise the last one made succeeds |
| Connections.TriesFailBefore | lib/paralleldbclient.cpp:253-262 | attempts stop at the first that succeeds: every attempt before the last one made fails |
| Connections.OpensWithinIff | lib/paralleldbclient.cpp:253-262 | up to `n` attempts from index `k` open the connection exactly when one of the attempts `k` to `k+n-1` would succeed |
| Connections.WithinSplit | lib/paralleldbclient.cpp:253-262 | `m` attempts followed by `n` more open the connection, and make as many attempts, as one run of `m + n` |
| Connections.AfterAttempts | lib/paralleldbclient.cpp:253-262 | after a lookup or explicit opens, only the looked-up entry can change, and only its open flag: it is open exactly when it was open already or one of the attempts succeeds |
| Connections.AttemptsCompose | lib/paralleldbclient.cpp:253-262 | two rounds of attempts, the second numbered on from the first, give the same table and log as one round of all the attempts |
| Connections.OneAttempt | lib/paralleldbclient.cpp:164-167 | a single attempt on a registered, closed connection logs one attempt and opens it exactly when that attempt succeeds; on an open or unregistered connection it changes nothing and logs nothing |
| Connections.RetryCanSucceed | lib/paralleldbclient.cpp:253-262 | when the lookup's attempt fails and the next succeeds, one attempt leaves the connection closed and two leave it open, with both attempts logged |
| Connections.AttemptsOfRound | lib/paralleldbclient.cpp:253-262 | after a round is logged, the next attempt's index is the old count plus the attempts just logged |
| Connections.Rounds | lib/paralleldbclient.cpp:393-397 | a round of `m` attempts followed by a round of `n`, numbered on from the log, is one round of `m + n`: same table, same log, and the connection opens in one exactly when it opens in the other |
| Connections.StaysOpen | lib/paralleldbclient.cpp:253-262 | once the connection is open, a further lookup or open attempt changes neither the table nor the log |
| Connections.LookupThenRetry | lib/paralleldbclient.cpp:253-262 | after openDb's lookup, a still-closed registered connection gets one more attempt with the next index, and the pair is one round of two attempts; an open or unregistered connection is left as the lookup left it, and it is open after the two attempts exactly when it was open after the lookup |
| Connections.ConnectionTable.Open | lib/paralleldbclient.cpp:255-258 | an open on a registered name logs one attempt and sets the open flag to the oracle's answer for that attempt's index; an unregistered name fails without an attempt |
| Connections.ConnectionTable.Database | lib/paralleldbclient.cpp:164-167 | a lookup with `open` set makes one attempt on a registered, closed connection and leaves everything else alone; without it nothing changes |
| Descriptors.SqlAuthString | lib/paralleldbclient.cpp:207-217 | when no parameter holds a ';', the string splits on ';' into DRIVER={label}, SERVER=ip,port, DATABASE=name, UID=user and PWD=password, in that order |
| Descriptors.WinAuthString | lib/paralleldbclient.cpp:218-226 | when no parameter holds a ';', the string splits on ';' into DRIVER={label}, SERVER=ip,port and DATABASE=name, in that order |
| Descriptors.Configure | lib/paralleldbclient.cpp:195-227 | only MYSQL sets more than the database name; MSSQL_LOCAL leaves the descriptor as it was |
| Descriptors.AppliedAsWritten | lib/paralleldbclient.cpp:188-228 | the driver is kept; SQLITE and MYSQL keep the connection's own database name and are open exactly when getDbname's open attempt succeeds (MYSQL after host and port are set); the other engines leave the connection closed |
| Descriptors.WinAuthIsSqlAuthWithoutCredentials | lib/paralleldbclient.cpp:207-226 | the SQL-authentication string is the integrated one followed by UID and PWD; the integrated string does not depend on the credentials |
| Descriptors.ConfigureDependsOnlyOnItsFields | lib/paralleldbclient.cpp:195-226 | each engine's descriptor depends only on the parameters its branch reads |
| Descriptors.Prepared | lib/paralleldbclient.cpp:232-250 | after addDb and closeDb the connection is closed: either the existing entry or a new one with the engine's driver and default parameters |
| Descriptors.AppliedIntended | lib/paralleldbclient.cpp:188-228 | the intended descriptor per engine: SQLITE gets the configured database name; MYSQL gets host, port, name and credentials; the MSSQL modes get their ODBC strings; MSSQL_LOCAL gets nothing; the connection stays closed |
| Descriptors.AsWrittenAgreesForMssql | lib/paralleldbclient.cpp:205-227 | for the three MSSQL engines the code matches the intended descriptor and makes no open attempt on any connection name |
| Descriptors.SqliteIgnoresConfiguredName | lib/paralleldbclient.cpp:193-198 | for SQLITE on a fresh connection, the code as written leaves the database name empty, unlike the configured name, and leaves the connection open when the driver accepts it |
| Descriptors.MySqlKeepsPreviousName | lib/paralleldbclient.cpp:199-206 | for MYSQL the code as written sets host, port, user and password but keeps the connection's previous database name |
| Clients.Accepts | lib/paralleldbclient.cpp:439-447 | the lists are accepted exactly when they have the same length and are not empty |
| Clients.Bindings | lib/paralleldbclient.cpp:457-464 | exactly the placeholders are bound |
| Clients.BindingsAt | lib/paralleldbclient.cpp:457-464 | placeholder i carries value i unless a later position names the same placeholder |
| Clients.BindingsDistinct | lib/paralleldbclient.cpp:457-464 | with distinct placeholders, every placeholder i is bound to value i |
| Clients.BindValues | lib/paralleldbclient.cpp:457-464 | the binding loop produces the bound map of the placeholder and value lists |
| Clients.FetchAll | lib/paralleldbclient.cpp:406-411 | the fetch loop delivers every row of the cursor, in order |
| Clients.DbClient.constructor | lib/paralleldbclient.cpp:12-29 | the client copies the configuration into a fresh DbConfig with no domain and no hostErrors, and applies it: the connection entry becomes the as-written descriptor, and the open attempt of getDbname is logged |
| Clients.DbClient.AddDb | lib/paralleldbclient.cpp:232-240 | registers the name with the engine's driver unless it is already registered |
| Clients.DbClient.RemoveDbConnection | lib/paralleldbclient.cpp:61-67 | the name is no longer registered; nothing else changes |
| Clients.DbClient.CloseDb | lib/paralleldbclient.cpp:243-250 | the connection is closed, and it keeps its driver and descriptor |
| Clients.DbClient.OpenDb | lib/paralleldbclient.cpp:253-262 | the lookup and the explicit open are the next two open attempts on the name; the connection is open exactly when one of them succeeds, so a retry may succeed after the lookup failed; a final failure raises one dbError; an open connection is left alone, with nothing logged |
| Clients.DbClient.IsOpen | lib/paralleldbclient.cpp:681-684 | reports whether the connection is open after the lookup, which makes one open attempt on a registered, closed connection |
| Clients.DbClient.GetDbname | lib/paralleldbclient.cpp:164-167 | returns the connection's current database name, not the configured one, after a lookup that may open the connection |
| Clients.DbClient.ApplyConfig | lib/paralleldbclient.cpp:188-228 | the connection entry becomes the as-written descriptor built from the prepared connection, and the open attempts of getDbname are logged |
| Clients.DbClient.SetParameters | lib/paralleldbclient.cpp:193-227 | the engine branches of applyConfig, applied to the registered, closed connection |
| Clients.DbClient.SetMySqlParameters | lib/paralleldbclient.cpp:199-206 | the MYSQL branch sets host and port, reads back the connection's own database name through a lookup that makes one open attempt, then sets user and password |
| Clients.DbClient.SetConnectionName | lib/paralleldbclient.cpp:70-75 | the old name is unregistered, and the new name is registered with the configuration applied |
| Clients.DbClient.SetDbEngine | lib/paralleldbclient.cpp:84-88 | the registration is removed and the engine is replaced; nothing registers the connection again |
| Clients.DbClient.Destroy | lib/paralleldbclient.cpp:32-41 | after a lookup that makes one open attempt on a registered, closed connection, the connection is closed and its name is unregistered; every other entry is unchanged |
| Clients.DbClient.ExecuteQuery | lib/paralleldbclient.cpp:390-428 | the lookup and openDb are the next three open attempts; when one succeeds and the statement runs, every row of the statement, in order; otherwise no rows and dbErrors (two when the connection stays closed, one on an execution failure) |
| Clients.DbClient.ExecuteBindedQuery | lib/paralleldbclient.cpp:431-487 | mismatched or empty lists give no rows and no dbError, after the lookup's single open attempt, with nothing bound or executed; otherwise as ExecuteQuery with the bound map |
| Clients.DbClient.ExecuteNonQuery | lib/paralleldbclient.cpp:490-521 | true exactly when the connection opens and the statement runs; every failure raises its dbErrors |
| Clients.DbClient.ExecuteBindedNonQuery | lib/paralleldbclient.cpp:524-576 | false for mismatched or empty lists, with nothing bound or executed; otherwise as ExecuteNonQuery with the bound map |
| Factory.DbFactory.GetDbClient | lib/paralleldbfactory.cpp:22-39 | returns the stored client, or null and a requestedDberror naming the missing client |
| Factory.DbFactory.CreateDbClient | lib/paralleldbfactory.cpp:41-59 | a new client is stored under the name, with the given connection name, a copy of the configuration and no dbErrors; the table and log change as the client constructor says; a replaced entry raises a warning and the map keeps its size; a new name grows it by one; other entries are unchanged |
| Factory.DbFactory.RemoveDbClient | lib/paralleldbfactory.cpp:62-73 | returns whether the name was present; the name is absent afterwards and other entries are unchanged |

## Left out

- The asynchronous wrappers are not modelled: sendQuery, sendBindedQuery, sendNonQuery, sendBindedNonQuery, select, insert, update and del only hand the synchronous paths to QtConcurrent. The QMutex, which only executeQuery and useLog lock, is left out too, since the model is sequential.
- The native driver is an oracle. Whether an open succeeds (given the driver, the descriptor and the attempt's index on that name) and what a statement returns are parameters of the connection table. The contents of databases are not modelled, and neither is a later failure of an open connection.
- The open oracle is not constrained for a driver that did not load, such as the empty driver name of MSSQL_LOCAL. Qt gives such a connection a null driver that never opens; the model still logs the open attempt, as Qt's lookup does, but leaves its outcome to the oracle, so it over-approximates this case.
- Name resolution is a `Resolver` parameter. The source calls `QHostInfo::fromName` twice in setIp(QString); the model treats both calls as one, deterministic lookup.
- A `QHostAddress` is represented by its textual form; address parsing and normalisation are not modelled.
- The logging, `useLog`, and verifyPresenceOfRequestedDriver (a driver-availability check whose only effect is a log line) are left out.
- connected() is not modelled: it is an ODBC handshake through the native C API.
- lastError, tables, record, transaction, commit and rollback are left out: their results come from the native driver. Each of them, like the modelled isOpen, first looks the connection up with `QSqlDatabase::database(name)`, which makes an open attempt on a closed connection. driverHasFeature is a stub that returns false and is left out.
- The client's forwarding setters and getters (setDbConfig, setIp, setPort, setDbName, setAddress, setUsername, setPassword, setOdbcName, getConnectionName, getDbConfig, getDbEngine, getIp, getPort, getUsername, getPassword, getOdbcName) are not modelled separately. They only forward to the DbConfig members, which are modelled. getDbname is the exception: it reads the connection, and it is modelled.
- The factory singleton (getInstance) is left out; the model builds the registry explicitly. The metainfo class and the demo application are not part of this model.
- Descriptors.SqlAuthString and Descriptors.WinAuthString: QString::arg re-scans the text it has substituted so far. A configured value that itself contains `%1`…`%6` would be substituted again, and the model does not capture this.
- DbConfigs.IsDomainAddress: `\d` is modelled as the ASCII digits 0-9; QRegExp also matches other Unicode decimal digits.
- dbconfig.h declares setIp(QHostAddress) inline, and dbconfig.cpp defines it a second time; the domain member the .cpp writes is not declared in the header, and neither is isDomainAddress, which dbconfig.cpp defines and calls (lib/dbconfig.cpp:79, :102). The model follows the .cpp definitions.
- The signal `dbError` carries a QSqlError; the model records only which failure raised it.

## Findings

| source | as written | input that shows it | evidently intended | confidence | as-written member | corrected member |
|---|---|---|---|---|---|---|
| lib/paralleldbclient.cpp:193-204 | the SQLITE and MYSQL branches of applyConfig set the database name from getDbname(). That returns the connection's current name (empty on a fresh connection), not the configured one, and its lookup opens the connection. | a client whose configuration is SQLITE with database name "app.db", on a connection name not yet registered | the connection's database name is the configured name ("app.db"), and the connection stays closed until openDb | not executed | Descriptors.SqliteIgnoresConfiguredName | Descriptors.AppliedIntended |
