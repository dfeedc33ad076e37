/**
 * What the two mock database managers (mock_dbmanager.py and
 * tests/mock_dbmanager.py) share: the mock catalogue, the session fields a
 * manager updates, and the signals it emits.
 */
module DbCommon {
  import opened Wrappers
  import opened PyValues

  /** A signal emitted through `_emit`: its name and its data. */
  datatype Emission = Emission(signame: string, data: map<string, Value>)

  /** The `UI_FEEDBACK` signal carrying a message and an error flag. */
  function Feedback(message: string, error: bool): (e: Emission)
    ensures e.signame == "UI_FEEDBACK" && e.data.Keys == {"message", "error"}
    ensures e.data["message"] == Str(message) && e.data["error"] == Bool(error)
  {
    Emission("UI_FEEDBACK", map["message" := Str(message), "error" := Bool(error)])
  }

  predicate IsErrorFeedback(e: Emission)
  {
    e.signame == "UI_FEEDBACK" && "error" in e.data && e.data["error"] == Bool(true)
  }

  const NotConnected: string := "Not connected to a server"

  /** `'"{}"'.format(name)`. */
  function Quoted(name: string): string
  {
    "\"" + name + "\""
  }

  /** The keys of `mock_databases`, in insertion order. */
  const MockDatabaseNames: seq<string> := ["Book Store", "Car Dealership"]

  /** `mock_databases`: database name to its table names. */
  const MockDatabases: map<string, seq<string>> := map[
    "Book Store" := ["Book", "Genre", "Author", "Customer", "Publisher", "Inventory"],
    "Car Dealership" := ["Car", "Make", "Model", "Employee", "Customer", "Order"]]

  /** A database or table selection: None, or a name (possibly the empty one). */
  predicate Selected(name: Option<string>)
  {
    name.Some? && name.value != ""
  }

  /** A selection as the Python value it is. */
  function NameValue(name: Option<string>): Value
  {
    match name
    case None => Null
    case Some(n) => Str(n)
  }

  /** The fields a database manager updates. */
  datatype Session = Session(
    hostname: Value,
    port: Value,
    username: Value,
    password: Value,
    connected: bool,
    databaseCurr: Option<string>,
    tableCurr: Option<string>)

  /** The fields right after `__init__`: nothing connected or selected, port 5432. */
  const InitialSession: Session := Session(Str(""), Int(5432), Str(""), Str(""), false, Some(""), Some(""))

  /** A selected database is always one of the mock databases. */
  predicate Consistent(s: Session)
  {
    Selected(s.databaseCurr) ==> s.databaseCurr.value in MockDatabases
  }

  /** One handler call: the fields afterwards, the signals emitted in order, and the return value or exception. */
  datatype Outcome = Outcome(session: Session, emitted: seq<Emission>, ret: Result<Value, Exception>)

  /**
   * What every guard failure does: one error feedback and nothing else, no
   * field changed, and a falsy value returned.
   */
  predicate Rejected(s: Session, o: Outcome)
  {
    && o.session == s && |o.emitted| == 1 && IsErrorFeedback(o.emitted[0])
    && o.ret.Success? && !Truthy(o.ret.value)
  }

  /** No signal emitted is an error feedback. */
  predicate NoError(o: Outcome)
  {
    forall k :: 0 <= k < |o.emitted| ==> !IsErrorFeedback(o.emitted[k])
  }

  /** A guard failure reporting `message` and returning `default`. */
  function Reject(s: Session, message: string, default: Value): (o: Outcome)
    requires !Truthy(default)
    ensures Rejected(s, o) && !NoError(o)
    ensures o.emitted == [Feedback(message, true)] && o.ret == Success(default)
  {
    Outcome(s, [Feedback(message, true)], Success(default))
  }

  /** A success reported through one non-error feedback. */
  function Accept(s: Session, message: string, ret: Value): (o: Outcome)
    ensures NoError(o) && !Rejected(s, o) && o.session == s
    ensures o.emitted == [Feedback(message, false)] && o.ret == Success(ret)
  {
    Outcome(s, [Feedback(message, false)], Success(ret))
  }

  /**
   * `list_databases`, written alike in both managers: the names of the mock
   * databases, emitted and returned, or `[]` with an error.
   */
  function ListDatabasesOutcome(s: Session): (o: Outcome)
    ensures o.session == s
    ensures !s.connected ==> Rejected(s, o) && o.ret == Success(List([]))
    ensures !s.connected ==> o.emitted == [Feedback(NotConnected, true)]
    ensures s.connected ==>
      && o.ret == Success(Strs(MockDatabaseNames)) && NoError(o)
      && o.emitted == [Emission("UI_DATABASE_LIST", map["databases" := Strs(MockDatabaseNames)])]
  {
    if !s.connected then Reject(s, NotConnected, List([]))
    else Outcome(s, [Emission("UI_DATABASE_LIST", map["databases" := Strs(MockDatabaseNames)])],
                 Success(Strs(MockDatabaseNames)))
  }

  /** `list_tables`, written alike in both managers: the current database's tables, emitted and returned, or `[]` with an error. */
  function ListTablesOutcome(s: Session): (o: Outcome)
    requires Consistent(s)
    ensures o.session == s
    ensures !(s.connected && Selected(s.databaseCurr)) ==> Rejected(s, o) && o.ret == Success(List([]))
    ensures !s.connected ==> o.emitted == [Feedback(NotConnected, true)]
    ensures s.connected && !Selected(s.databaseCurr) ==> o.emitted == [Feedback("No database selected", true)]
    ensures s.connected && Selected(s.databaseCurr) ==>
      var tables := Strs(MockDatabases[s.databaseCurr.value]);
      o.ret == Success(tables) && NoError(o) && o.emitted == [Emission("UI_TABLE_LIST", map["tables" := tables])]
  {
    if !s.connected then Reject(s, NotConnected, List([]))
    else if !Selected(s.databaseCurr) then Reject(s, "No database selected", List([]))
    else
      var tables := Strs(MockDatabases[s.databaseCurr.value]);
      Outcome(s, [Emission("UI_TABLE_LIST", map["tables" := tables])], Success(tables))
  }
}
