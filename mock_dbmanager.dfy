/**
 * The mock database manager of mock_dbmanager.py: a connection and selection
 * state machine over the mock catalogue.  Every handler checks its guards in
 * a fixed order, emits feedback or data signals, and returns a value.  Each
 * handler is specified by a function giving its `Outcome` on a `Session`;
 * the `DatabaseManager` methods are proved to follow those functions.
 */
module MockDbManager {
  import opened Wrappers
  import opened PyValues
  import opened DbCommon

  /** `mock_raw_query_result` (mock_dbmanager.py:26-31). */
  const MockRawQueryResult: string :=
    "Good afternoon, gentlemen. I am a HAL 9000 computer. I became operational at the H.A.L. plant in Urbana, Illinois on the 12th of January 1992. My instructor was Mr. Langley, and he taught me to sing a song. If you'd like to hear it I can sing it for you."

  /**
   * `connect`: an empty hostname, then a falsy port (0 included), is turned
   * away; otherwise the four credentials are stored and the manager is
   * connected, the selection untouched.
   */
  function ConnectOutcome(s: Session, hostname: Value, port: Value, username: Value, password: Value): (o: Outcome)
    ensures o.ret == Success(Bool(true)) <==> Truthy(hostname) && Truthy(port)
    ensures o.ret != Success(Bool(true)) ==> Rejected(s, o) && o.ret == Success(Bool(false))
    ensures !Truthy(hostname) ==> o.emitted == [Feedback("Hostname must be specified", true)]
    ensures Truthy(hostname) && !Truthy(port) ==> o.emitted == [Feedback("Port number must be specified", true)]
    ensures o.ret == Success(Bool(true)) ==>
      && o.session.connected && o.session.hostname == hostname && o.session.port == port
      && o.session.username == username && o.session.password == password
      && o.session.databaseCurr == s.databaseCurr && o.session.tableCurr == s.tableCurr
      && o.emitted == [Feedback("Connection with server established", false)]
  {
    if !Truthy(hostname) then Reject(s, "Hostname must be specified", Bool(false))
    else if !Truthy(port) then Reject(s, "Port number must be specified", Bool(false))
    else Accept(s.(hostname := hostname, port := port, username := username, password := password, connected := true),
                "Connection with server established", Bool(true))
  }

  /** `disconnect`: fails unless connected; otherwise clears only the connection flag. */
  function DisconnectOutcome(s: Session): (o: Outcome)
    ensures o.ret == Success(Bool(true)) <==> s.connected
    ensures !s.connected ==> Rejected(s, o) && o.emitted == [Feedback(NotConnected, true)] && o.ret == Success(Bool(false))
    ensures s.connected ==> o.session == s.(connected := false)
    ensures s.connected ==> o.emitted == [Feedback("Connection with server terminated", false)]
    ensures o.session.databaseCurr == s.databaseCurr && o.session.tableCurr == s.tableCurr
  {
    if !s.connected then Reject(s, NotConnected, Bool(false))
    else Accept(s.(connected := false), "Connection with server terminated", Bool(true))
  }

  /**
   * `set_database`: None unsets the database without an error and returns
   * False; a name needs a connection and then must be a mock database, and
   * only then becomes current.
   */
  function SetDatabaseOutcome(s: Session, database: Option<string>): (o: Outcome)
    ensures database.None? ==> o.session == s.(databaseCurr := None) && o.ret == Success(Bool(false))
    ensures database.None? ==> o.emitted == [Feedback("Database unset", false)]
    ensures o.ret == Success(Bool(true)) <==> database.Some? && s.connected && database.value in MockDatabases
    ensures database.Some? && !s.connected ==> Rejected(s, o) && o.emitted == [Feedback(NotConnected, true)]
    ensures database.Some? && o.ret != Success(Bool(true)) ==> Rejected(s, o) && o.ret == Success(Bool(false))
    ensures o.ret == Success(Bool(true)) ==> o.session == s.(databaseCurr := database)
    ensures o.ret == Success(Bool(true)) ==>
      o.emitted == [Feedback(Quoted(database.value) + " set as current database", false)]
    ensures database.Some? && s.connected && database.value !in MockDatabases ==>
      o.emitted == [Feedback(Quoted(database.value) + " database not found on server", true)]
  {
    if database.None? then Accept(s.(databaseCurr := None), "Database unset", Bool(false))
    else if !s.connected then Reject(s, NotConnected, Bool(false))
    else if database.value !in MockDatabases then
      Reject(s, Quoted(database.value) + " database not found on server", Bool(false))
    else Accept(s.(databaseCurr := database), Quoted(database.value) + " set as current database", Bool(true))
  }

  /**
   * `set_table`: None unsets the table; otherwise the checks are, in order,
   * connected (False), a database selected (`[]`, not False), and the table in
   * that database (False); only success changes the current table.
   */
  function SetTableOutcome(s: Session, table: Option<string>): (o: Outcome)
    requires Consistent(s)
    ensures table.None? ==> o.session == s.(tableCurr := None) && o.ret == Success(Bool(false))
    ensures table.None? ==> o.emitted == [Feedback("Table unset", false)]
    ensures o.ret == Success(Bool(true)) <==>
      table.Some? && s.connected && Selected(s.databaseCurr) && table.value in MockDatabases[s.databaseCurr.value]
    ensures table.Some? && o.ret != Success(Bool(true)) ==> Rejected(s, o)
    ensures table.Some? && !s.connected ==> o.emitted == [Feedback(NotConnected, true)] && o.ret == Success(Bool(false))
    ensures table.Some? && s.connected && !Selected(s.databaseCurr) ==>
      o.emitted == [Feedback("No database selected", true)] && o.ret == Success(List([]))
    ensures table.Some? && s.connected && Selected(s.databaseCurr) ==> o.ret.value.Bool?
    ensures o.ret == Success(Bool(true)) ==> o.session == s.(tableCurr := table)
    ensures o.ret == Success(Bool(true)) ==>
      o.emitted == [Feedback(Quoted(table.value) + " set as current table", false)]
    ensures table.Some? && s.connected && Selected(s.databaseCurr) && table.value !in MockDatabases[s.databaseCurr.value] ==>
      o.emitted == [Feedback(Quoted(table.value) + " table not found in " + Quoted(s.databaseCurr.value) + " database", true)]
  {
    if table.None? then Accept(s.(tableCurr := None), "Table unset", Bool(false))
    else if !s.connected then Reject(s, NotConnected, Bool(false))
    else if !Selected(s.databaseCurr) then Reject(s, "No database selected", List([]))
    else if table.value !in MockDatabases[s.databaseCurr.value] then
      Reject(s, Quoted(table.value) + " table not found in " + Quoted(s.databaseCurr.value) + " database", Bool(false))
    else Accept(s.(tableCurr := table), Quoted(table.value) + " set as current table", Bool(true))
  }

  /**
   * `query_raw` as written: `[]` with an error when disconnected; connected,
   * it emits the mock result and then fails on the undefined name `result`.
   */
  function QueryRawOutcome(s: Session, raw: Value): (o: Outcome)
    ensures o.session == s
    ensures !s.connected ==> Rejected(s, o) && o.ret == Success(List([]))
    ensures !s.connected ==> o.emitted == [Feedback(NotConnected, true)]
    ensures o.ret.Failure? <==> s.connected
    ensures s.connected ==>
      && o.ret == Failure(NameError("result")) && NoError(o)
      && o.emitted == [Emission("UI_RAW_QUERY", map["result" := Str(MockRawQueryResult)])]
  {
    if !s.connected then Reject(s, NotConnected, List([]))
    else Outcome(s, [Emission("UI_RAW_QUERY", map["result" := Str(MockRawQueryResult)])],
                 Failure(NameError("result")))
  }

  /**
   * `query_raw` as evidently intended, returning what it emits (as the
   * variant in tests/mock_dbmanager.py does); it never raises.
   */
  function QueryRawFixed(s: Session, raw: Value): (o: Outcome)
    ensures o.session == s && o.ret.Success?
    ensures !s.connected ==> o == QueryRawOutcome(s, raw)
    ensures s.connected ==>
      && o.emitted == QueryRawOutcome(s, raw).emitted
      && o.ret == Success(o.emitted[0].data["result"]) && o.ret == Success(Str(MockRawQueryResult))
  {
    if !s.connected then Reject(s, NotConnected, List([]))
    else Outcome(s, [Emission("UI_RAW_QUERY", map["result" := Str(MockRawQueryResult)])], Success(Str(MockRawQueryResult)))
  }

  /** The manager object; `outbox` holds every signal it emitted, oldest first. */
  class DatabaseManager {
    var hostname: Value
    var port: Value
    var username: Value
    var password: Value
    var connected: bool
    var databaseCurr: Option<string>
    var tableCurr: Option<string>
    var outbox: seq<Emission>

    function State(): Session
      reads this
    {
      Session(hostname, port, username, password, connected, databaseCurr, tableCurr)
    }

    /** A selected database is always a mock database. */
    ghost predicate Valid()
      reads this
    {
      Consistent(State())
    }

    /** The fields of `__init__` (mock_dbmanager.py:64-71). */
    constructor ()
      ensures Valid() && State() == InitialSession && outbox == []
    {
      hostname, port, username, password := Str(""), Int(5432), Str(""), Str("");
      connected, databaseCurr, tableCurr := false, Some(""), Some("");
      outbox := [];
    }

    /** `_emit`: the signal goes out to the router (mock_dbmanager.py:101-113). */
    method Emit(signame: string, data: map<string, Value>)
      modifies this`outbox
      ensures outbox == old(outbox) + [Emission(signame, data)]
    {
      outbox := outbox + [Emission(signame, data)];
    }

    method EmitFeedback(message: string, error: bool)
      modifies this`outbox
      ensures outbox == old(outbox) + [Feedback(message, error)]
    {
      Emit("UI_FEEDBACK", map["message" := Str(message), "error" := Bool(error)]);
    }

    method Connect(hostname: Value, port: Value, username: Value, password: Value) returns (ok: bool)
      requires Valid()
      modifies this
      ensures Valid()
      ensures var o := ConnectOutcome(old(State()), hostname, port, username, password);
        State() == o.session && outbox == old(outbox) + o.emitted && o.ret == Success(Bool(ok))
    {
      if !Truthy(hostname) {
        EmitFeedback("Hostname must be specified", true);
        return false;
      }
      if !Truthy(port) {
        EmitFeedback("Port number must be specified", true);
        return false;
      }
      this.hostname := hostname;
      this.port := port;
      this.username := username;
      this.password := password;
      connected := true;
      EmitFeedback("Connection with server established", false);
      return true;
    }

    method Disconnect() returns (ok: bool)
      requires Valid()
      modifies this
      ensures Valid()
      ensures var o := DisconnectOutcome(old(State()));
        State() == o.session && outbox == old(outbox) + o.emitted && o.ret == Success(Bool(ok))
    {
      if !connected {
        EmitFeedback(NotConnected, true);
        return false;
      }
      connected := false;
      EmitFeedback("Connection with server terminated", false);
      return true;
    }

    method SetDatabase(database: Option<string>) returns (ok: bool)
      requires Valid()
      modifies this
      ensures Valid()
      ensures var o := SetDatabaseOutcome(old(State()), database);
        State() == o.session && outbox == old(outbox) + o.emitted && o.ret == Success(Bool(ok))
    {
      if database.None? {
        databaseCurr := None;
        EmitFeedback("Database unset", false);
        return false;
      }
      if !connected {
        EmitFeedback(NotConnected, true);
        return false;
      }
      if database.value !in MockDatabases {
        EmitFeedback(Quoted(database.value) + " database not found on server", true);
        return false;
      }
      databaseCurr := database;
      EmitFeedback(Quoted(database.value) + " set as current database", false);
      return true;
    }

    /** Returns True, False, or `[]` when no database is selected. */
    method SetTable(table: Option<string>) returns (r: Value)
      requires Valid()
      modifies this
      ensures Valid()
      ensures var o := SetTableOutcome(old(State()), table);
        State() == o.session && outbox == old(outbox) + o.emitted && o.ret == Success(r)
    {
      if table.None? {
        tableCurr := None;
        EmitFeedback("Table unset", false);
        return Bool(false);
      }
      if !connected {
        EmitFeedback(NotConnected, true);
        return Bool(false);
      }
      if !Selected(databaseCurr) {
        EmitFeedback("No database selected", true);
        return List([]);
      }
      if table.value !in MockDatabases[databaseCurr.value] {
        EmitFeedback(Quoted(table.value) + " table not found in " + Quoted(databaseCurr.value) + " database", true);
        return Bool(false);
      }
      tableCurr := table;
      EmitFeedback(Quoted(table.value) + " set as current table", false);
      return Bool(true);
    }

    method ListDatabases() returns (names: seq<string>)
      requires Valid()
      modifies this
      ensures Valid()
      ensures var o := ListDatabasesOutcome(old(State()));
        State() == o.session && outbox == old(outbox) + o.emitted && o.ret == Success(Strs(names))
    {
      if !connected {
        EmitFeedback(NotConnected, true);
        return [];
      }
      names := MockDatabaseNames;
      Emit("UI_DATABASE_LIST", map["databases" := Strs(names)]);
    }

    method ListTables() returns (tables: seq<string>)
      requires Valid()
      modifies this
      ensures Valid()
      ensures var o := ListTablesOutcome(old(State()));
        State() == o.session && outbox == old(outbox) + o.emitted && o.ret == Success(Strs(tables))
    {
      if !connected {
        EmitFeedback(NotConnected, true);
        return [];
      }
      if !Selected(databaseCurr) {
        EmitFeedback("No database selected", true);
        return [];
      }
      tables := MockDatabases[databaseCurr.value];
      Emit("UI_TABLE_LIST", map["tables" := Strs(tables)]);
    }

    /** Raises NameError once connected, as written (see Findings). */
    method QueryRaw(raw: Value) returns (r: Result<Value, Exception>)
      requires Valid()
      modifies this
      ensures Valid()
      ensures var o := QueryRawOutcome(old(State()), raw);
        State() == o.session && outbox == old(outbox) + o.emitted && o.ret == r
    {
      if !connected {
        EmitFeedback(NotConnected, true);
        return Success(List([]));
      }
      Emit("UI_RAW_QUERY", map["result" := Str(MockRawQueryResult)]);
      return Failure(NameError("result"));
    }
  }
}
