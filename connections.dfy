/** QSqlDatabase's process-wide table of named connections, the state every client's
    bookkeeping works on. The native driver is not modelled: whether an open succeeds and
    what a statement returns come from two oracle functions fixed when the table is made. */
module Connections {

  type Bytes = seq<bv8>

  /** A QSqlRecord, through its field values. */
  datatype Record = Record(values: seq<Bytes>)

  /** The parameters a QSqlDatabase handle carries; Qt's defaults are empty strings and port -1. */
  datatype Descriptor = Descriptor(databaseName: string, hostName: string, port: int, userName: string, password: string)

  const EmptyDescriptor: Descriptor := Descriptor([], [], -1, [], [])

  /** One entry of the table: the driver it was added with, whether it is open, its parameters. */
  datatype Connection = Connection(driver: string, open: bool, descriptor: Descriptor)

  /** What prepare + exec of a statement yields: failure, or the rows the cursor will deliver. */
  datatype ExecResult = ExecFailed | Executed(records: seq<Record>)

  /** The native calls the model logs, in order: open attempts and statement executions. */
  datatype NativeCall = OpenAttempt(name: string) | Execute(name: string, sql: string, bound: map<string, Bytes>)

  /** Oracle for QSqlDatabase::open: whether the attempt with the given index (0 for the first
      attempt on that connection name) succeeds for this driver and these parameters. An attempt
      may fail and a later one succeed, as when the server comes up in between. */
  type Opener = (string, Descriptor, nat) -> bool

  /** The number of open attempts on connection `name` in a call log. */
  function Attempts(calls: seq<NativeCall>, name: string): nat
  {
    if calls == [] then 0
    else Attempts(calls[..|calls| - 1], name) + (if calls[|calls| - 1] == OpenAttempt(name) then 1 else 0)
  }

  /** `n` open attempts on `name`. */
  function OpenAttempts(name: string, n: nat): (r: seq<NativeCall>)
    ensures |r| == n
    ensures forall i :: 0 <= i < n ==> r[i] == OpenAttempt(name)
  {
    if n == 0 then [] else OpenAttempts(name, n - 1) + [OpenAttempt(name)]
  }

  /** Logging `n` open attempts on `name` raises its attempt count by `n`. */
  lemma {:induction false} AttemptsAfter(calls: seq<NativeCall>, name: string, n: nat)
    ensures Attempts(calls + OpenAttempts(name, n), name) == Attempts(calls, name) + n
  {
    if n == 0 {
      assert calls + OpenAttempts(name, 0) == calls;
    } else {
      AttemptsAfter(calls, name, n - 1);
      var before := calls + OpenAttempts(name, n - 1);
      assert calls + OpenAttempts(name, n) == before + [OpenAttempt(name)];
      assert (before + [OpenAttempt(name)])[..|before|] == before;
    }
  }

  lemma {:induction false} OpenAttemptsAdd(name: string, m: nat, n: nat)
    ensures OpenAttempts(name, m) + OpenAttempts(name, n) == OpenAttempts(name, m + n)
  {
    if n > 0 {
      OpenAttemptsAdd(name, m, n - 1);
    }
  }

  /** One of the attempts k, k+1, ..., k+n-1 opens the connection. */
  predicate OpensWithin(c: Connection, canOpen: Opener, k: nat, n: nat)
    decreases n
  {
    n > 0 && (canOpen(c.driver, c.descriptor, k) || OpensWithin(c, canOpen, k + 1, n - 1))
  }

  /** The attempts made when up to `n` are tried in a row from index `k`, stopping at the first
      that succeeds. */
  function Tries(c: Connection, canOpen: Opener, k: nat, n: nat): (t: nat)
    ensures t <= n
    ensures !OpensWithin(c, canOpen, k, n) ==> t == n
    ensures OpensWithin(c, canOpen, k, n) ==> t >= 1 && canOpen(c.driver, c.descriptor, k + t - 1)
    decreases n
  {
    if n == 0 then 0
    else if canOpen(c.driver, c.descriptor, k) then 1
    else 1 + Tries(c, canOpen, k + 1, n - 1)
  }

  /** Up to `n` attempts from index `k` open the connection exactly when one of the attempts
      `k` ... `k+n-1` would. */
  lemma {:induction false} OpensWithinIff(c: Connection, canOpen: Opener, k: nat, n: nat)
    ensures OpensWithin(c, canOpen, k, n) <==> exists j: nat :: k <= j < k + n && canOpen(c.driver, c.descriptor, j)
    decreases n
  {
    if n > 0 {
      OpensWithinIff(c, canOpen, k + 1, n - 1);
    }
  }

  /** Every attempt before the last one made fails. */
  lemma {:induction false} TriesFailBefore(c: Connection, canOpen: Opener, k: nat, n: nat)
    ensures forall j: nat :: k <= j < k + Tries(c, canOpen, k, n) - 1 ==> !canOpen(c.driver, c.descriptor, j)
    decreases n
  {
    if n > 0 && !canOpen(c.driver, c.descriptor, k) {
      TriesFailBefore(c, canOpen, k + 1, n - 1);
    }
  }

  /** `m` attempts followed by `n` more are `m + n` attempts. */
  lemma {:induction false} WithinSplit(c: Connection, canOpen: Opener, k: nat, m: nat, n: nat)
    ensures OpensWithin(c, canOpen, k, m + n) <==> OpensWithin(c, canOpen, k, m) || OpensWithin(c, canOpen, k + m, n)
    ensures Tries(c, canOpen, k, m + n) ==
              if OpensWithin(c, canOpen, k, m) then Tries(c, canOpen, k, m) else m + Tries(c, canOpen, k + m, n)
    decreases m
  {
    if m > 0 {
      WithinSplit(c, canOpen, k + 1, m - 1, n);
      assert (k + 1) + (m - 1) == k + m;
      assert m + n - 1 == (m - 1) + n;
    }
  }

  /** The table after up to `n` open attempts on `name` from attempt index `k`, as a lookup
      (QSqlDatabase::database(name), which opens by default) and explicit open() calls on a
      still-closed handle make them: a registered, closed connection is opened by the first
      attempt that succeeds; anything else is left alone. */
  function AfterAttempts(conns: map<string, Connection>, name: string, canOpen: Opener, k: nat, n: nat): (r: map<string, Connection>)
    ensures r.Keys == conns.Keys
    ensures forall other :: other in conns && other != name ==> r[other] == conns[other]
    ensures name in conns ==> r[name].driver == conns[name].driver && r[name].descriptor == conns[name].descriptor
    ensures (name in r && r[name].open) <==> OpensAfter(conns, name, canOpen, k, n)
  {
    if name in conns && !conns[name].open then
      conns[name := conns[name].(open := OpensWithin(conns[name], canOpen, k, n))]
    else conns
  }

  /** The open attempts those rounds log: none on an open or unregistered connection. */
  function AttemptCalls(conns: map<string, Connection>, name: string, canOpen: Opener, k: nat, n: nat): seq<NativeCall>
  {
    if name in conns && !conns[name].open then OpenAttempts(name, Tries(conns[name], canOpen, k, n)) else []
  }

  /** The connection is open after up to `n` attempts from index `k`. */
  predicate OpensAfter(conns: map<string, Connection>, name: string, canOpen: Opener, k: nat, n: nat)
  {
    name in conns && (conns[name].open || OpensWithin(conns[name], canOpen, k, n))
  }

  /** Two rounds of attempts, the second numbered on from the attempts the first one logged, end
      as one round of `m + n` attempts. */
  lemma {:induction false} AttemptsCompose(conns: map<string, Connection>, name: string, canOpen: Opener, k: nat, m: nat, n: nat)
    ensures var mid := AfterAttempts(conns, name, canOpen, k, m);
            var k2 := k + |AttemptCalls(conns, name, canOpen, k, m)|;
            && AfterAttempts(mid, name, canOpen, k2, n) == AfterAttempts(conns, name, canOpen, k, m + n)
            && AttemptCalls(conns, name, canOpen, k, m) + AttemptCalls(mid, name, canOpen, k2, n)
               == AttemptCalls(conns, name, canOpen, k, m + n)
  {
    if name in conns && !conns[name].open {
      var c := conns[name];
      WithinSplit(c, canOpen, k, m, n);
      if OpensWithin(c, canOpen, k, m) {
        assert AttemptCalls(conns, name, canOpen, k, m) + [] == AttemptCalls(conns, name, canOpen, k, m);
      } else {
        assert c.(open := false) == c;
        assert AfterAttempts(conns, name, canOpen, k, m) == conns;
        OpenAttemptsAdd(name, m, Tries(c, canOpen, k + m, n));
      }
    }
  }

  /** Once the connection is open, a further lookup changes neither the table nor the log. */
  lemma StaysOpen(conns: map<string, Connection>, name: string, canOpen: Opener, k: nat, n: nat)
    requires name in conns && conns[name].open
    ensures AfterAttempts(conns, name, canOpen, k, n) == conns && AttemptCalls(conns, name, canOpen, k, n) == []
  {
  }

  /** A single attempt (a lookup, or an explicit open of a closed handle): on a registered, closed
      connection the log gains one open attempt and the connection is open exactly when attempt
      `k` succeeds; anything else is left alone and nothing is logged. */
  lemma OneAttempt(conns: map<string, Connection>, name: string, canOpen: Opener, k: nat)
    ensures name in conns && !conns[name].open ==>
            var c := conns[name];
            && AfterAttempts(conns, name, canOpen, k, 1) == conns[name := c.(open := canOpen(c.driver, c.descriptor, k))]
            && AttemptCalls(conns, name, canOpen, k, 1) == [OpenAttempt(name)]
    ensures !(name in conns && !conns[name].open) ==>
            AfterAttempts(conns, name, canOpen, k, 1) == conns && AttemptCalls(conns, name, canOpen, k, 1) == []
  {
    assert OpenAttempts(name, 1) == [OpenAttempt(name)];
  }

  /** A retry can succeed where the first attempt failed: when attempt `k` fails and attempt
      `k + 1` succeeds, one attempt leaves the connection closed, two leave it open, and both
      attempts are logged. */
  lemma RetryCanSucceed(conns: map<string, Connection>, name: string, canOpen: Opener, k: nat)
    requires name in conns && !conns[name].open
    requires !canOpen(conns[name].driver, conns[name].descriptor, k)
    requires canOpen(conns[name].driver, conns[name].descriptor, k + 1)
    ensures !OpensAfter(conns, name, canOpen, k, 1) && OpensAfter(conns, name, canOpen, k, 2)
    ensures AttemptCalls(conns, name, canOpen, k, 2) == [OpenAttempt(name), OpenAttempt(name)]
  {
    var c := conns[name];
    assert Tries(c, canOpen, k, 2) == 2;
    assert OpenAttempts(name, 2) == [OpenAttempt(name)] + [OpenAttempt(name)];
  }

  /** Attempt indexes follow the log: after logging a round, the next attempt's index is the
      old count plus the attempts just logged. */
  lemma AttemptsOfRound(calls: seq<NativeCall>, conns: map<string, Connection>, name: string, canOpen: Opener, k: nat, n: nat)
    ensures Attempts(calls + AttemptCalls(conns, name, canOpen, k, n), name) ==
              Attempts(calls, name) + |AttemptCalls(conns, name, canOpen, k, n)|
  {
    if name in conns && !conns[name].open {
      AttemptsAfter(calls, name, Tries(conns[name], canOpen, k, n));
    } else {
      assert calls + AttemptCalls(conns, name, canOpen, k, n) == calls;
    }
  }

  /** A first round of `m` attempts followed by a second of `n`, numbered on from the log, is one
      round of `m + n` attempts: same table, same log, same outcome. */
  lemma Rounds(calls: seq<NativeCall>, conns: map<string, Connection>, name: string, canOpen: Opener, m: nat, n: nat)
    ensures var k := Attempts(calls, name);
            var mid := AfterAttempts(conns, name, canOpen, k, m);
            var calls1 := calls + AttemptCalls(conns, name, canOpen, k, m);
            var k1 := Attempts(calls1, name);
            && AfterAttempts(mid, name, canOpen, k1, n) == AfterAttempts(conns, name, canOpen, k, m + n)
            && calls1 + AttemptCalls(mid, name, canOpen, k1, n) == calls + AttemptCalls(conns, name, canOpen, k, m + n)
            && (OpensAfter(mid, name, canOpen, k1, n) <==> OpensAfter(conns, name, canOpen, k, m + n))
  {
    var k := Attempts(calls, name);
    AttemptsCompose(conns, name, canOpen, k, m, n);
    AttemptsOfRound(calls, conns, name, canOpen, k, m);
  }

  /** openDb's two attempts: after the lookup's round, a still-closed registered connection gets
      one explicit attempt, numbered on from the log, and anything else is left as the lookup
      left it. Either way the result is one round of two attempts. */
  lemma LookupThenRetry(calls: seq<NativeCall>, conns: map<string, Connection>, name: string, canOpen: Opener)
    ensures var k := Attempts(calls, name);
            var conns1 := AfterAttempts(conns, name, canOpen, k, 1);
            var calls1 := calls + AttemptCalls(conns, name, canOpen, k, 1);
            var k1 := Attempts(calls1, name);
            if name in conns1 && !conns1[name].open then
              var c := conns1[name];
              && AfterAttempts(conns, name, canOpen, k, 2) == conns1[name := c.(open := canOpen(c.driver, c.descriptor, k1))]
              && calls + AttemptCalls(conns, name, canOpen, k, 2) == calls1 + [OpenAttempt(name)]
              && (OpensAfter(conns, name, canOpen, k, 2) <==> canOpen(c.driver, c.descriptor, k1))
            else
              && AfterAttempts(conns, name, canOpen, k, 2) == conns1
              && calls + AttemptCalls(conns, name, canOpen, k, 2) == calls1
              && (OpensAfter(conns, name, canOpen, k, 2) <==> name in conns1)
  {
    var k := Attempts(calls, name);
    var conns1 := AfterAttempts(conns, name, canOpen, k, 1);
    var calls1 := calls + AttemptCalls(conns, name, canOpen, k, 1);
    Rounds(calls, conns, name, canOpen, 1, 1);
    OneAttempt(conns1, name, canOpen, Attempts(calls1, name));
    assert calls1 + [] == calls1;
  }

  class ConnectionTable {
    var conns: map<string, Connection>
    var calls: seq<NativeCall>
    /** Oracle: does this open attempt succeed. */
    const canOpen: Opener
    /** Oracle: the outcome of prepare + exec of a statement with bound values on a connection. */
    const run: (Connection, string, map<string, Bytes>) -> ExecResult

    constructor (canOpen: Opener, run: (Connection, string, map<string, Bytes>) -> ExecResult)
      ensures conns == map[] && calls == []
      ensures this.canOpen == canOpen && this.run == run
    {
      conns := map[];
      calls := [];
      this.canOpen := canOpen;
      this.run := run;
    }

    /** QSqlDatabase::contains. */
    predicate Contains(name: string)
      reads this
    {
      name in conns
    }

    /** isOpen() of a handle; an unregistered name gives an invalid, closed handle. */
    predicate IsOpen(name: string)
      reads this
    {
      name in conns && conns[name].open
    }

    /** databaseName() of a handle; empty for an unregistered name. */
    function DatabaseName(name: string): string
      reads this
    {
      if name in conns then conns[name].descriptor.databaseName else []
    }

    /** QSqlDatabase::addDatabase: a new, closed connection with default parameters. */
    method AddDatabase(driver: string, name: string)
      modifies this`conns
      ensures conns == old(conns)[name := Connection(driver, false, EmptyDescriptor)]
    {
      conns := conns[name := Connection(driver, false, EmptyDescriptor)];
    }

    /** QSqlDatabase::removeDatabase. */
    method RemoveDatabase(name: string)
      modifies this`conns
      ensures conns == old(conns) - {name}
    {
      conns := conns - {name};
    }

    /** QSqlDatabase::open: a native attempt on a registered connection; an invalid handle fails
        without reaching a driver. */
    method Open(name: string) returns (ok: bool)
      modifies this
      ensures name in old(conns) ==>
                var c := old(conns)[name];
                ok == canOpen(c.driver, c.descriptor, Attempts(old(calls), name)) &&
                conns == old(conns)[name := c.(open := ok)] &&
                calls == old(calls) + [OpenAttempt(name)]
      ensures name !in old(conns) ==> !ok && conns == old(conns) && calls == old(calls)
    {
      ok := false;
      if name in conns {
        var c := conns[name];
        ok := canOpen(c.driver, c.descriptor, Attempts(calls, name));
        conns := conns[name := c.(open := ok)];
        calls := calls + [OpenAttempt(name)];
      }
    }

    /** close() of a handle. */
    method Close(name: string)
      modifies this`conns
      ensures conns == if name in old(conns) then old(conns)[name := old(conns)[name].(open := false)] else old(conns)
    {
      if name in conns {
        conns := conns[name := conns[name].(open := false)];
      }
    }

    /** QSqlDatabase::database(name, open): with `open` set, a closed connection gets one open
        attempt now. */
    method Database(name: string, open: bool)
      modifies this
      ensures conns == if open then AfterAttempts(old(conns), name, canOpen, Attempts(old(calls), name), 1) else old(conns)
      ensures calls == old(calls) + if open then AttemptCalls(old(conns), name, canOpen, Attempts(old(calls), name), 1) else []
    {
      if open && name in conns && !conns[name].open {
        var _ := Open(name);
      } else {
        assert calls + [] == calls;
      }
    }

    /** setDatabaseName on a handle; an invalid handle absorbs the change. */
    method SetDatabaseName(name: string, v: string)
      modifies this`conns
      ensures conns == if name in old(conns) then
                         old(conns)[name := old(conns)[name].(descriptor := old(conns)[name].descriptor.(databaseName := v))]
                       else old(conns)
    {
      if name in conns {
        var c := conns[name];
        conns := conns[name := c.(descriptor := c.descriptor.(databaseName := v))];
      }
    }

    method SetHostName(name: string, v: string)
      modifies this`conns
      ensures conns == if name in old(conns) then
                         old(conns)[name := old(conns)[name].(descriptor := old(conns)[name].descriptor.(hostName := v))]
                       else old(conns)
    {
      if name in conns {
        var c := conns[name];
        conns := conns[name := c.(descriptor := c.descriptor.(hostName := v))];
      }
    }

    method SetPort(name: string, v: int)
      modifies this`conns
      ensures conns == if name in old(conns) then
                         old(conns)[name := old(conns)[name].(descriptor := old(conns)[name].descriptor.(port := v))]
                       else old(conns)
    {
      if name in conns {
        var c := conns[name];
        conns := conns[name := c.(descriptor := c.descriptor.(port := v))];
      }
    }

    method SetUserName(name: string, v: string)
      modifies this`conns
      ensures conns == if name in old(conns) then
                         old(conns)[name := old(conns)[name].(descriptor := old(conns)[name].descriptor.(userName := v))]
                       else old(conns)
    {
      if name in conns {
        var c := conns[name];
        conns := conns[name := c.(descriptor := c.descriptor.(userName := v))];
      }
    }

    method SetPassword(name: string, v: string)
      modifies this`conns
      ensures conns == if name in old(conns) then
                         old(conns)[name := old(conns)[name].(descriptor := old(conns)[name].descriptor.(password := v))]
                       else old(conns)
    {
      if name in conns {
        var c := conns[name];
        conns := conns[name := c.(descriptor := c.descriptor.(password := v))];
      }
    }

    /** QSqlQuery prepare + exec on an open connection. */
    method Exec(name: string, sql: string, bound: map<string, Bytes>) returns (r: ExecResult)
      requires IsOpen(name)
      modifies this`calls
      ensures r == run(conns[name], sql, bound)
      ensures calls == old(calls) + [Execute(name, sql, bound)]
    {
      r := run(conns[name], sql, bound);
      calls := calls + [Execute(name, sql, bound)];
    }
  }
}
