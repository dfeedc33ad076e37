/**
 * The later mock database manager of tests/mock_dbmanager.py.  Next to the
 * handlers of mock_dbmanager.py it imports and exports databases, lists a
 * table's content and structure, answers raw queries, and reports through
 * `_emit_error` and `_emit_success`.  Each handler is specified by a
 * function giving its `Outcome` on a `Session`; the `DatabaseManager`
 * methods are proved to follow those functions.
 */
module TestsMockDbManager {
  import opened Wrappers
  import opened PyValues
  import opened DbCommon

  /** `mock_table_content`: a header row and five rows of people. */
  const MockTableContent: Value := List([
    List([Str("Id"), Str("First Name"), Str("Surname"), Str("DoB")]),
    List([Int(1), Str("Linus"), Str("Torvalds"), Str("1969-12-28")]),
    List([Int(2), Str("Richard"), Str("Stallman"), Str("1953-03-16")]),
    List([Int(3), Str("Bill"), Str("Gates"), Str("1955-10-28")]),
    List([Int(4), Str("Steve"), Str("Jobs"), Str("1955-02-24")]),
    List([Int(5), Str("Steve"), Str("Wozniak"), Str("1950-08-11")])])

  /** `mock_table_structure`: a header row and one row per column. */
  const MockTableStructure: Value := List([
    List([Str("Field"), Str("Type"), Str("Null"), Str("Key"), Str("Default"), Str("Extra")]),
    List([Str("Id"), Str("int(11)"), Str("NO"), Str("PRI"), Str("NULL"), Str("auto_increment")]),
    List([Str("First Name"), Str("varchar(20)"), Str("NO"), Str(""), Str(""), Str("")]),
    List([Str("Surname"), Str("varchar(20)"), Str("NO"), Str(""), Str(""), Str("")]),
    List([Str("DoB"), Str("date"), Str("NO"), Str(""), Str("0000-00-00"), Str("")])])

  /**
   * The eleven lines of dialogue of `mock_raw_query_result`; the backslash
   * at the end of the fifth source line joins it to the next.
   */
  const RawQueryLines: seq<string> := [
    "HAL: Good afternoon, gentlemen.",
    "HAL: I am a HAL 9000 computer.",
    "HAL: I became 'operational at the H.A.L. plant in Urbana, Illinois on the 12th, of January 1992.",
    "HAL: My instructor was Mr. Langley, and he taught me to sing a song.",
    "HAL: If you'd like to hear it I can sing it for you.",
    "DAVE BOWMAN: Yes, I'd like to hear it, HAL. Sing it for me.",
    "HAL: It's called Daisy.",
    "HAL: Daisy, Daisy, give me your answer do.",
    "HAL: I'm half crazy all for the love of you.",
    "HAL: It won't be a stylish marriage, I can't afford a carriage.",
    "HAL: But you'll look sweet upon the seat of a bicycle built for two."]

  /** The lines separated by blank lines, without a final newline. */
  function Paragraphs(lines: seq<string>): string
  {
    if |lines| == 0 then "" else if |lines| == 1 then lines[0] else lines[0] + "\n\n" + Paragraphs(lines[1..])
  }

  /** `mock_raw_query_result` (tests/mock_dbmanager.py:51-74). */
  const MockRawQueryResult: string := Paragraphs(RawQueryLines)

  /**
   * What every reachable session satisfies: the selected database exists, and
   * a table was only ever selected while some database was (so the initial
   * empty database name never sits next to a selected table).
   */
  predicate Coherent(s: Session)
  {
    Consistent(s) && (Selected(s.tableCurr) ==> s.databaseCurr != Some(""))
  }

  lemma InitialCoherent()
    ensures Coherent(InitialSession) && !InitialSession.connected
    ensures !Selected(InitialSession.databaseCurr) && !Selected(InitialSession.tableCurr)
  {
  }

  /**
   * `connect`: an empty hostname, then a falsy port, is turned away through
   * `_emit_error`; otherwise the four credentials are stored and the manager
   * is connected, the selection untouched.
   */
  function ConnectOutcome(s: Session, hostname: Value, port: Value, username: Value, password: Value): (o: Outcome)
    ensures o.ret == Success(Bool(true)) <==> Truthy(hostname) && Truthy(port)
    ensures o.ret != Success(Bool(true)) ==> Rejected(s, o) && o.ret == Success(Bool(false))
    ensures !Truthy(hostname) ==> o.emitted == [Feedback("Hostname must be specified", true)]
    ensures Truthy(hostname) && !Truthy(port) ==> o.emitted == [Feedback("Port number must be specified", true)]
    ensures o.ret == Success(Bool(true)) ==>
      && o.session == s.(hostname := hostname, port := port, username := username, password := password, connected := true)
      && o.emitted == [Feedback("Connection with server established", false)]
  {
    if !Truthy(hostname) then Reject(s, "Hostname must be specified", Bool(false))
    else if !Truthy(port) then Reject(s, "Port number must be specified", Bool(false))
    else Accept(s.(hostname := hostname, port := port, username := username, password := password, connected := true),
                "Connection with server established", Bool(true))
  }

  /** `disconnect`: fails unless connected; otherwise clears only the connection flag. */
  function DisconnectOutcome(s: Session): (o: Outcome)
    ensures o.ret == Success(Bool(true)) <==> s.connected
    ensures !s.connected ==> Rejected(s, o) && o.emitted == [Feedback(NotConnected, true)] && o.ret == Success(Bool(false))
    ensures s.connected ==> o.session == s.(connected := false)
    ensures s.connected ==> o.emitted == [Feedback("Connection with server terminated", false)]
  {
    if !s.connected then Reject(s, NotConnected, Bool(false))
    else Accept(s.(connected := false), "Connection with server terminated", Bool(true))
  }

  /** `import_db`: needs a connection; on success a feedback and None, for want of a return statement. */
  function ImportDbOutcome(s: Session, path: Value, filetype: Value): (o: Outcome)
    ensures o.session == s
    ensures !s.connected ==> Rejected(s, o) && o.ret == Success(Bool(false))
    ensures !s.connected ==> o.emitted == [Feedback(NotConnected, true)]
    ensures s.connected ==> o.ret == Success(Null) && o.emitted == [Feedback("Database successfully imported from file", false)]
  {
    if !s.connected then Reject(s, NotConnected, Bool(false))
    else Accept(s, "Database successfully imported from file", Null)
  }

  /** `export_db`: needs a connection and then a current database; on success a feedback and None. */
  function ExportDbOutcome(s: Session, path: Value, filetype: Value): (o: Outcome)
    ensures o.session == s
    ensures o.ret == Success(Null) <==> s.connected && Selected(s.databaseCurr)
    ensures o.ret != Success(Null) ==> Rejected(s, o) && o.ret == Success(Bool(false))
    ensures !s.connected ==> o.emitted == [Feedback(NotConnected, true)]
    ensures s.connected && !Selected(s.databaseCurr) ==> o.emitted == [Feedback("No database selected", true)]
    ensures o.ret == Success(Null) ==> o.emitted == [Feedback("Database successfully exported to file", false)]
  {
    if !s.connected then Reject(s, NotConnected, Bool(false))
    else if !Selected(s.databaseCurr) then Reject(s, "No database selected", Bool(false))
    else Accept(s, "Database successfully exported to file", Null)
  }

  /**
   * `set_database`: None unsets the database with a success feedback and
   * returns False; a name needs a connection and must be a mock database, and
   * then UI_SET_DATABASE goes out before the success feedback.
   */
  function SetDatabaseOutcome(s: Session, database: Option<string>): (o: Outcome)
    ensures database.None? ==> o.session == s.(databaseCurr := None) && o.ret == Success(Bool(false))
    ensures database.None? ==> o.emitted == [Feedback("Database unset", false)]
    ensures database.Some? && !s.connected ==> o.emitted == [Feedback(NotConnected, true)]
    ensures database.Some? && s.connected && database.value !in MockDatabases ==>
      o.emitted == [Feedback(Quoted(database.value) + " database not found on server", true)]
    ensures o.ret == Success(Bool(true)) <==> database.Some? && s.connected && database.value in MockDatabases
    ensures database.Some? && o.ret != Success(Bool(true)) ==> Rejected(s, o) && o.ret == Success(Bool(false))
    ensures o.ret == Success(Bool(true)) ==>
      && o.session == s.(databaseCurr := database)
      && o.emitted == [Emission("UI_SET_DATABASE", map["database" := Str(database.value)]),
                       Feedback(Quoted(database.value) + " set as current database", false)]
  {
    if database.None? then Accept(s.(databaseCurr := None), "Database unset", Bool(false))
    else if !s.connected then Reject(s, NotConnected, Bool(false))
    else if database.value !in MockDatabases then
      Reject(s, Quoted(database.value) + " database not found on server", Bool(false))
    else Outcome(s.(databaseCurr := database),
                 [Emission("UI_SET_DATABASE", map["database" := Str(database.value)]),
                  Feedback(Quoted(database.value) + " set as current database", false)],
                 Success(Bool(true)))
  }

  /**
   * `set_table`: None unsets the table; otherwise every guard failure
   * (connection, database, table) returns False, never `[]`, and success
   * emits UI_SET_TABLE before the success feedback.
   */
  function SetTableOutcome(s: Session, table: Option<string>): (o: Outcome)
    requires Consistent(s)
    ensures table.None? ==> o.session == s.(tableCurr := None) && o.ret == Success(Bool(false))
    ensures table.None? ==> o.emitted == [Feedback("Table unset", false)]
    ensures table.Some? && !s.connected ==> o.emitted == [Feedback(NotConnected, true)]
    ensures table.Some? && s.connected && !Selected(s.databaseCurr) ==> o.emitted == [Feedback("No database selected", true)]
    ensures table.Some? && s.connected && Selected(s.databaseCurr) && table.value !in MockDatabases[s.databaseCurr.value] ==>
      o.emitted == [Feedback(Quoted(table.value) + " table not found in " + Quoted(s.databaseCurr.value) + " database", true)]
    ensures o.ret == Success(Bool(true)) <==>
      table.Some? && s.connected && Selected(s.databaseCurr) && table.value in MockDatabases[s.databaseCurr.value]
    ensures table.Some? && o.ret != Success(Bool(true)) ==> Rejected(s, o) && o.ret == Success(Bool(false))
    ensures o.ret == Success(Bool(true)) ==>
      && o.session == s.(tableCurr := table)
      && o.emitted == [Emission("UI_SET_TABLE", map["table" := Str(table.value)]),
                       Feedback(Quoted(table.value) + " set as current table", false)]
  {
    if table.None? then Accept(s.(tableCurr := None), "Table unset", Bool(false))
    else if !s.connected then Reject(s, NotConnected, Bool(false))
    else if !Selected(s.databaseCurr) then Reject(s, "No database selected", Bool(false))
    else if table.value !in MockDatabases[s.databaseCurr.value] then
      Reject(s, Quoted(table.value) + " table not found in " + Quoted(s.databaseCurr.value) + " database", Bool(false))
    else Outcome(s.(tableCurr := table),
                 [Emission("UI_SET_TABLE", map["table" := Str(table.value)]),
                  Feedback(Quoted(table.value) + " set as current table", false)],
                 Success(Bool(true)))
  }

  /** The condition under which a table's content and structure are listed. */
  predicate TableAvailable(s: Session)
  {
    && s.connected && Selected(s.tableCurr) && Selected(s.databaseCurr)
    && s.databaseCurr.value in MockDatabases && s.tableCurr.value in MockDatabases[s.databaseCurr.value]
  }

  /**
   * The guards `list_table_content` and `list_table_structure` share, as
   * written, then the emission of `data` under `key`: the data when the table
   * is available, `[]` with an error otherwise, except that a table still set
   * after the database was unset makes `mock_databases[None]` raise (see
   * Findings).
   */
  function ListTableOutcome(s: Session, signame: string, key: string, data: Value): (o: Outcome)
    requires Coherent(s) && Truthy(data)
    ensures o.session == s
    ensures TableAvailable(s) <==> o.ret == Success(data)
    ensures TableAvailable(s) ==> o.emitted == [Emission(signame, map[key := data])]
    ensures o.ret.Failure? <==> s.connected && Selected(s.tableCurr) && s.databaseCurr.None?
    ensures o.ret.Failure? ==> o.ret == Failure(KeyError(Null)) && o.emitted == []
    ensures !TableAvailable(s) && o.ret.Success? ==> Rejected(s, o) && o.ret == Success(List([]))
    ensures !s.connected ==> o.emitted == [Feedback(NotConnected, true)]
    ensures s.connected && !Selected(s.tableCurr) ==> o.emitted == [Feedback("No table selected", true)]
    ensures s.connected && Selected(s.tableCurr) && s.databaseCurr.Some? && !TableAvailable(s) ==>
      o.emitted == [Feedback(Quoted(s.tableCurr.value) + " table not found in " + Quoted(s.databaseCurr.value) + " database", true)]
  {
    if !s.connected then Reject(s, NotConnected, List([]))
    else if !Selected(s.tableCurr) then Reject(s, "No table selected", List([]))
    else if s.databaseCurr.None? then Outcome(s, [], Failure(KeyError(Null)))
    else if s.tableCurr.value !in MockDatabases[s.databaseCurr.value] then
      Reject(s, Quoted(s.tableCurr.value) + " table not found in " + Quoted(s.databaseCurr.value) + " database", List([]))
    else Outcome(s, [Emission(signame, map[key := data])], Success(data))
  }

  /** `list_table_content`. */
  function ListTableContentOutcome(s: Session): (o: Outcome)
    requires Coherent(s)
    ensures TableAvailable(s) <==> o.ret == Success(MockTableContent)
    ensures TableAvailable(s) ==> o.emitted == [Emission("UI_TABLE_CONTENT", map["table_content" := MockTableContent])]
  {
    ListTableOutcome(s, "UI_TABLE_CONTENT", "table_content", MockTableContent)
  }

  /** `list_table_structure`. */
  function ListTableStructureOutcome(s: Session): (o: Outcome)
    requires Coherent(s)
    ensures TableAvailable(s) <==> o.ret == Success(MockTableStructure)
    ensures TableAvailable(s) ==> o.emitted == [Emission("UI_TABLE_STRUCTURE", map["table_structure" := MockTableStructure])]
  {
    ListTableOutcome(s, "UI_TABLE_STRUCTURE", "table_structure", MockTableStructure)
  }

  /** `query_raw`: `''` with an error when disconnected, else the mock result, after emitting it. */
  function QueryRawOutcome(s: Session, raw: Value): (o: Outcome)
    ensures o.session == s
    ensures !s.connected ==> Rejected(s, o) && o.ret == Success(Str(""))
    ensures !s.connected ==> o.emitted == [Feedback(NotConnected, true)]
    ensures s.connected ==>
      && o.ret == Success(Str(MockRawQueryResult)) && NoError(o)
      && o.emitted == [Emission("UI_RAW_QUERY", map["result" := Str(MockRawQueryResult)])]
  {
    if !s.connected then Reject(s, NotConnected, Str(""))
    else Outcome(s, [Emission("UI_RAW_QUERY", map["result" := Str(MockRawQueryResult)])], Success(Str(MockRawQueryResult)))
  }

  /** Connecting and disconnecting leave the selection, hence coherence, alone. */
  lemma ConnectionKeepsCoherent(s: Session, hostname: Value, port: Value, username: Value, password: Value)
    requires Coherent(s)
    ensures Coherent(ConnectOutcome(s, hostname, port, username, password).session)
    ensures Coherent(DisconnectOutcome(s).session)
  {
  }

  /** Selecting a database or a table keeps the session coherent. */
  lemma SelectionKeepsCoherent(s: Session, name: Option<string>)
    requires Coherent(s)
    ensures Coherent(SetDatabaseOutcome(s, name).session)
    ensures Coherent(SetTableOutcome(s, name).session)
  {
  }

  /** The session after `connect`, `set_database("Book Store")`, `set_table("Book")`, `set_database(None)`. */
  function StaleTableSession(): (s: Session)
    ensures Coherent(s)
  {
    var s1 := ConnectOutcome(InitialSession, Str("localhost"), Int(5432), Str("user"), Str("secret")).session;
    var s2 := SetDatabaseOutcome(s1, Some("Book Store")).session;
    var s3 := SetTableOutcome(s2, Some("Book")).session;
    SetDatabaseOutcome(s3, None).session
  }

  /** As written, listing the content or the structure then looks up `mock_databases[None]` and raises. */
  lemma StaleTableRaises()
    ensures ListTableContentOutcome(StaleTableSession()).ret == Failure(KeyError(Null))
    ensures ListTableStructureOutcome(StaleTableSession()).ret == Failure(KeyError(Null))
  {
    var s1 := ConnectOutcome(InitialSession, Str("localhost"), Int(5432), Str("user"), Str("secret")).session;
    assert s1.connected && s1.databaseCurr == Some("");
    var s2 := SetDatabaseOutcome(s1, Some("Book Store")).session;
    assert s2.connected && s2.databaseCurr == Some("Book Store");
    assert "Book" in MockDatabases["Book Store"];
    var s3 := SetTableOutcome(s2, Some("Book")).session;
    assert s3.connected && s3.tableCurr == Some("Book") && s3.databaseCurr == Some("Book Store");
    var s4 := SetDatabaseOutcome(s3, None).session;
    assert s4 == StaleTableSession();
    assert s4.connected && s4.tableCurr == Some("Book") && s4.databaseCurr == None;
  }

  /**
   * The shared guards with the "No database selected" check that `list_tables`
   * and `export_db` carry: they never raise, and yield the data exactly when
   * the table is available.
   */
  function ListTableFixed(s: Session, signame: string, key: string, data: Value): (o: Outcome)
    requires Coherent(s) && Truthy(data)
    ensures o.ret.Success? && o.session == s
    ensures TableAvailable(s) <==> o.ret == Success(data)
    ensures TableAvailable(s) ==> o == ListTableOutcome(s, signame, key, data)
    ensures !TableAvailable(s) ==> Rejected(s, o) && o.ret == Success(List([]))
  {
    if !s.connected then Reject(s, NotConnected, List([]))
    else if !Selected(s.tableCurr) then Reject(s, "No table selected", List([]))
    else if !Selected(s.databaseCurr) then Reject(s, "No database selected", List([]))
    else if s.tableCurr.value !in MockDatabases[s.databaseCurr.value] then
      Reject(s, Quoted(s.tableCurr.value) + " table not found in " + Quoted(s.databaseCurr.value) + " database", List([]))
    else Outcome(s, [Emission(signame, map[key := data])], Success(data))
  }

  /** The manager object; `outbox` holds every signal it emitted, oldest first. */
  class DatabaseManager {
    var hostname: Value
    var port: Value
    var username: Value
    var password: Value
    var connected: bool
    var databaseCurr: Option<string>
    var tableCurr: Option<string>
    var outbox: seq<Emission>

    function State(): Session
      reads this
    {
      Session(hostname, port, username, password, connected, databaseCurr, tableCurr)
    }

    ghost predicate Valid()
      reads this
    {
      Coherent(State())
    }

    /** The fields of `__init__` (tests/mock_dbmanager.py:107-114). */
    constructor ()
      ensures Valid() && State() == InitialSession && outbox == []
    {
      hostname, port, username, password := Str(""), Int(5432), Str(""), Str("");
      connected, databaseCurr, tableCurr := false, Some(""), Some("");
      outbox := [];
    }

    /** `_emit`: the signal goes out to the router (tests/mock_dbmanager.py:147-159). */
    method Emit(signame: string, data: map<string, Value>)
      modifies this`outbox
      ensures outbox == old(outbox) + [Emission(signame, data)]
    {
      outbox := outbox + [Emission(signame, data)];
    }

    /** `_emit_error` (tests/mock_dbmanager.py:162-169). */
    method EmitError(message: string)
      modifies this`outbox
      ensures outbox == old(outbox) + [Feedback(message, true)]
      ensures IsErrorFeedback(outbox[|outbox| - 1])
    {
      Emit("UI_FEEDBACK", map["message" := Str(message), "error" := Bool(true)]);
    }

    /** `_emit_success` (tests/mock_dbmanager.py:172-179). */
    method EmitSuccess(message: string)
      modifies this`outbox
      ensures outbox == old(outbox) + [Feedback(message, false)]
      ensures !IsErrorFeedback(outbox[|outbox| - 1])
    {
      Emit("UI_FEEDBACK", map["message" := Str(message), "error" := Bool(false)]);
    }

    method Connect(hostname: Value, port: Value, username: Value, password: Value) returns (ok: bool)
      requires Valid()
      modifies this
      ensures Valid()
      ensures var o := ConnectOutcome(old(State()), hostname, port, username, password);
        State() == o.session && outbox == old(outbox) + o.emitted && o.ret == Success(Bool(ok))
    {
      if !Truthy(hostname) {
        EmitError("Hostname must be specified");
        return false;
      }
      if !Truthy(port) {
        EmitError("Port number must be specified");
        return false;
      }
      this.hostname := hostname;
      this.port := port;
      this.username := username;
      this.password := password;
      connected := true;
      EmitSuccess("Connection with server established");
      return true;
    }

    method Disconnect() returns (ok: bool)
      requires Valid()
      modifies this
      ensures Valid()
      ensures var o := DisconnectOutcome(old(State()));
        State() == o.session && outbox == old(outbox) + o.emitted && o.ret == Success(Bool(ok))
    {
      if !connected {
        EmitError(NotConnected);
        return false;
      }
      connected := false;
      EmitSuccess("Connection with server terminated");
      return true;
    }

    /** Returns False on failure and None (there is no return statement) on success. */
    method ImportDb(path: Value, filetype: Value) returns (r: Value)
      requires Valid()
      modifies this
      ensures Valid()
      ensures var o := ImportDbOutcome(old(State()), path, filetype);
        State() == o.session && outbox == old(outbox) + o.emitted && o.ret == Success(r)
    {
      if !connected {
        EmitError(NotConnected);
        return Bool(false);
      }
      EmitSuccess("Database successfully imported from file");
      return Null;
    }

    method ExportDb(path: Value, filetype: Value) returns (r: Value)
      requires Valid()
      modifies this
      ensures Valid()
      ensures var o := ExportDbOutcome(old(State()), path, filetype);
        State() == o.session && outbox == old(outbox) + o.emitted && o.ret == Success(r)
    {
      if !connected {
        EmitError(NotConnected);
        return Bool(false);
      }
      if !Selected(databaseCurr) {
        EmitError("No database selected");
        return Bool(false);
      }
      EmitSuccess("Database successfully exported to file");
      return Null;
    }

    method SetDatabase(database: Option<string>) returns (ok: bool)
      requires Valid()
      modifies this
      ensures Valid()
      ensures var o := SetDatabaseOutcome(old(State()), database);
        State() == o.session && outbox == old(outbox) + o.emitted && o.ret == Success(Bool(ok))
    {
      if database.None? {
        databaseCurr := None;
        EmitSuccess("Database unset");
        return false;
      }
      if !connected {
        EmitError(NotConnected);
        return false;
      }
      if database.value !in MockDatabases {
        EmitError(Quoted(database.value) + " database not found on server");
        return false;
      }
      databaseCurr := database;
      Emit("UI_SET_DATABASE", map["database" := Str(database.value)]);
      EmitSuccess(Quoted(database.value) + " set as current database");
      return true;
    }

    method SetTable(table: Option<string>) returns (ok: bool)
      requires Valid()
      modifies this
      ensures Valid()
      ensures var o := SetTableOutcome(old(State()), table);
        State() == o.session && outbox == old(outbox) + o.emitted && o.ret == Success(Bool(ok))
    {
      if table.None? {
        tableCurr := None;
        EmitSuccess("Table unset");
        return false;
      }
      if !connected {
        EmitError(NotConnected);
        return false;
      }
      if !Selected(databaseCurr) {
        EmitError("No database selected");
        return false;
      }
      if table.value !in MockDatabases[databaseCurr.value] {
        EmitError(Quoted(table.value) + " table not found in " + Quoted(databaseCurr.value) + " database");
        return false;
      }
      tableCurr := table;
      Emit("UI_SET_TABLE", map["table" := Str(table.value)]);
      EmitSuccess(Quoted(table.value) + " set as current table");
      return true;
    }

    method ListDatabases() returns (names: seq<string>)
      requires Valid()
      modifies this
      ensures Valid()
      ensures var o := ListDatabasesOutcome(old(State()));
        State() == o.session && outbox == old(outbox) + o.emitted && o.ret == Success(Strs(names))
    {
      if !connected {
        EmitError(NotConnected);
        return [];
      }
      names := MockDatabaseNames;
      Emit("UI_DATABASE_LIST", map["databases" := Strs(names)]);
    }

    method ListTables() returns (tables: seq<string>)
      requires Valid()
      modifies this
      ensures Valid()
      ensures var o := ListTablesOutcome(old(State()));
        State() == o.session && outbox == old(outbox) + o.emitted && o.ret == Success(Strs(tables))
    {
      if !connected {
        EmitError(NotConnected);
        return [];
      }
      if !Selected(databaseCurr) {
        EmitError("No database selected");
        return [];
      }
      tables := MockDatabases[databaseCurr.value];
      Emit("UI_TABLE_LIST", map["tables" := Strs(tables)]);
    }

    /** The guards and emission `list_table_content` and `list_table_structure` share, as written. */
    method EmitTable(signame: string, key: string, data: Value) returns (r: Result<Value, Exception>)
      requires Valid() && Truthy(data)
      modifies this`outbox
      ensures var o := ListTableOutcome(old(State()), signame, key, data);
        outbox == old(outbox) + o.emitted && o.ret == r
    {
      if !connected {
        EmitError(NotConnected);
        return Success(List([]));
      }
      if !Selected(tableCurr) {
        EmitError("No table selected");
        return Success(List([]));
      }
      if databaseCurr.None? {
        return Failure(KeyError(Null));
      }
      if tableCurr.value !in MockDatabases[databaseCurr.value] {
        EmitError(Quoted(tableCurr.value) + " table not found in " + Quoted(databaseCurr.value) + " database");
        return Success(List([]));
      }
      Emit(signame, map[key := data]);
      return Success(data);
    }

    method ListTableContent() returns (r: Result<Value, Exception>)
      requires Valid()
      modifies this
      ensures Valid()
      ensures var o := ListTableContentOutcome(old(State()));
        State() == o.session && outbox == old(outbox) + o.emitted && o.ret == r
    {
      r := EmitTable("UI_TABLE_CONTENT", "table_content", MockTableContent);
    }

    method ListTableStructure() returns (r: Result<Value, Exception>)
      requires Valid()
      modifies this
      ensures Valid()
      ensures var o := ListTableStructureOutcome(old(State()));
        State() == o.session && outbox == old(outbox) + o.emitted && o.ret == r
    {
      r := EmitTable("UI_TABLE_STRUCTURE", "table_structure", MockTableStructure);
    }

    method QueryRaw(raw: Value) returns (result: string)
      requires Valid()
      modifies this
      ensures Valid()
      ensures var o := QueryRawOutcome(old(State()), raw);
        State() == o.session && outbox == old(outbox) + o.emitted && o.ret == Success(Str(result))
    {
      if !connected {
        EmitError(NotConnected);
        return "";
      }
      Emit("UI_RAW_QUERY", map["result" := Str(MockRawQueryResult)]);
      return MockRawQueryResult;
    }
  }
}
