# cs419-f15-group2 core in Dafny

This project models the sequential core of a curses database client written in
Python:

- **the signal bus** (`signals.py`): a `Signal` carries a name, a data map, a
  `propagate` flag and a one-way alive flag. A `SignalRouter` keeps, for each
  signal name, an ordered list of handler references and forwards signals to them;
- **the widgets' input state machines** (`uiframework/widgets.py`): what
  `operate(key)`, `compose`, `focus`, `blur` and the option-list operations do
  to each widget's fields;
- **the two mock database managers** (`mock_dbmanager.py` and
  `tests/mock_dbmanager.py`): state machines over a connection flag, a current
  database and a current table, checked against a fixed mock catalogue. Every
  handler tests its guards in a fixed order, emits feedback or data signals, and
  returns a value;
- **the ASCII table parser** (`tests/tabletest.py`): `asciiToTable`, which turns
  a pretty-printed table into rows of stripped cells.

Files and modules:

- `wrappers.dfy`: `Option` and `Result`.
- `py_values.dfy` (`PyValues`): Python values, truthiness and exceptions.
- `py_strings.dfy` (`PyStrings`): `str.split`, `str.join` and `str.strip`.
- `signals.dfy` (`Signals`).
- `widgets.dfy` (`Widgets`).
- `db_common.dfy` (`DbCommon`): what the two managers share, including
  `list_databases` and `list_tables`, which both files write alike
  (tests/mock_dbmanager.py:371-419 repeats mock_dbmanager.py:295-349).
- `mock_dbmanager.dfy` (`MockDbManager`).
- `tests_mock_dbmanager.dfy` (`TestsMockDbManager`).
- `tabletest.dfy` (`TableTest`): the parser.
- `tabletest_sample.dfy` (`TableSample`): pretty-printed tables and the sample
  table.

The objects whose fields the Python code updates in place are Dafny classes.
Their methods are `modifies`-framed and are proved against pure specification
functions:

- `SignalRouter.Register`, `Deregister` and `Forward` are proved against
  `Registered`, `Deregistered`, `Delivery` and `Replay`.
- Each database-manager method is proved against an `…Outcome` function. That
  function gives the new `Session` (the fields), the signals emitted, and the
  return value or raised exception.

An emitted signal is appended to an `outbox` field and is not sent through a
router.

`Forward` takes a parameter `react` that says what each invoked handler does to
the bus while it runs: subscribe, unsubscribe, kill the signal, or nothing. It is
proved that:

- the handlers invoked are fixed by the table as it was on entry;
- the table ends as those reactions left it;
- the router's invariant holds throughout: no empty list, and no handler twice.

Delivered data is not modelled.

Where the code and its own documentation disagree, the model follows the code:

- `forward` returns `None`, although its docstring promises a bool (True if
  the signal is forwarded). `register` documents no return value and returns
  `None` too.
- The `set_table` of `mock_dbmanager.py` returns `[]`, not `False`, when no
  database is selected.
- `import_db` and `export_db` return `None` on success, because they have no
  return statement.

Python semantics that the model writes out:

- truthiness (`not port` rejects a port of `0`);
- `%` with a positive divisor, which agrees with Dafny's;
- `split` keeps empty pieces;
- `strip` removes the characters that `str.isspace` accepts;
- `row[0]` on an empty line raises `IndexError`;
- `mock_databases[None]` raises `KeyError`;
- a mention of an undefined name raises `NameError`.

## Model

| member | source | states |
|---|---|---|
| `Signals.WeakRef` | signals.py:137-142 | Only functions and bound methods get a reference; any other handler gets none. |
| `Signals.ReversedAt` | signals.py:113-114 | The k-th element of the reversed list is the k-th element from the end. |
| `Signals.ReversedInvolution` | signals.py:113-114 | Reversing twice gives back the list. |
| `Signals.ReversedKeepsElements` | signals.py:113-114 | Reversal keeps exactly the same elements, and keeps a duplicate-free list duplicate-free. |
| `Signals.IndexOf` | signals.py:172 | `list.index(x)`: the position of the first `x`, with no `x` before it. |
| `Signals.RemoveFirst` | signals.py:172 | `list.remove(x)` cuts out the first `x` and keeps every other element in order, so the list is one shorter. |
| `Signals.RemoveFirstMultiset` | signals.py:172 | `list.remove(x)` takes away exactly one copy of `x`: the multiset loses one `x`. |
| `Signals.Reversed` | signals.py:113-114 | `list.reverse` keeps the length. |
| `Signals.RemoveFirstUnique` | signals.py:172 | On a duplicate-free list, removal takes `x` out completely, keeps every other element, and keeps the list duplicate-free. |
| `Signals.Registered` | signals.py:137-149 | A non-function handler leaves the table unchanged. Other names are untouched. A new name gets a list of just the handler. An unlisted handler is appended at the end. An already listed handler leaves the table unchanged. |
| `Signals.Deregistered` | signals.py:161-176 | Other names are untouched. An absent name, an absent handler or a non-function handler leaves the table unchanged. A listed handler is removed with `list.remove`, and the name is deleted exactly when its list becomes empty. |
| `Signals.RegisteredWellFormed` | signals.py:144-149 | `register` keeps the invariant: no empty list, no duplicate handler. |
| `Signals.DeregisteredWellFormed` | signals.py:168-176 | `deregister` keeps the invariant: its removal and the deletion of an emptied key leave no empty list and no duplicate. |
| `Signals.RegisterIdempotent` | signals.py:145-147 | Registering twice is registering once, and registering an already listed handler changes nothing, so it keeps its first place. |
| `Signals.DeregisterRemoves` | signals.py:169-176 | After `deregister`, the handler is no longer listed under that name, and every other handler listed there stays. The name disappears exactly when the handler was its only one. |
| `Signals.DeregisterKeepsOrder` | signals.py:172 | The handlers left after `deregister` keep their order: only the removed one is cut out of the list. |
| `Signals.RegistrationOrder` | signals.py:109-149 | Two handlers registered in turn are invoked in that order, or in the reverse order when reversed. A non-propagating signal reaches only the first, or only the second when reversed. |
| `Signals.DeregisterUndoesRegister` | signals.py:144-176 | Deregistering a freshly registered handler restores the exact table, including the deletion of a key created for it. |
| `Signals.Delivery` | signals.py:109-125 | Nobody is invoked exactly when the signal is dead or the name has no handlers. A propagating signal invokes as many handlers as are listed. A non-propagating one invokes at most one. |
| `Signals.DeliveryToNobody` | signals.py:109 | A dead signal, or a name with no entry, is forwarded to nobody. |
| `Signals.DeliveryOrder` | signals.py:111-125 | A propagating signal reaches every handler, in registration order or exactly reversed. |
| `Signals.DeliveryNonPropagating` | signals.py:116-119 | A non-propagating signal reaches exactly one handler: the first, or the last when reversed. |
| `Signals.DeliveryUnique` | signals.py:109-125 | No handler is invoked twice, and only handlers registered under the name are invoked. |
| `Signals.Replay` | signals.py:122-125 | Handlers that neither subscribe nor unsubscribe leave the table as it was. |
| `Signals.ReplayElsewhere` | signals.py:122-125 | A name that no invoked handler subscribes to or unsubscribes from keeps its list. |
| `Signals.ApplyWellFormed` | signals.py:125 | A single handler's subscription or unsubscription keeps the table well formed. |
| `Signals.ReplayWellFormed` | signals.py:122-125 | Any sequence of registrations and deregistrations made by handlers keeps the table well formed. |
| `Signals.Signal.constructor` | signals.py:23-33 | A new signal holds its name, data and flag, and is alive. |
| `Signals.Signal.Kill` | signals.py:80-82 | After `kill` the signal is not alive. |
| `Signals.Signal.Assign` | signals.py:42-77 | Assigning any property raises `AttributeError` with that property's message and changes nothing. |
| `Signals.SignalRouter.constructor` | signals.py:92-93 | A new router has an empty, well-formed table. |
| `Signals.SignalRouter.Register` | signals.py:128-149 | The new table is `Registered(old table)`, and the invariant is kept. |
| `Signals.SignalRouter.Deregister` | signals.py:152-176 | The new table is `Deregistered(old table)`, and the invariant is kept. |
| `Signals.SignalRouter.Handle` | signals.py:125 | Running one handler applies its reaction to the table, and only a kill changes the signal. |
| `Signals.SignalRouter.InvokeAll` | signals.py:122-125 | Running the handlers in turn leaves the table as `Replay` says. The signal stays alive exactly when it was alive and no handler killed it. |
| `Signals.SignalRouter.Forward` | signals.py:96-125 | The handlers invoked are `Delivery` of the table and signal as they were on entry, whatever the handlers change. The table ends as their reactions left it. The signal ends dead exactly when it was already dead, or it had handlers and did not propagate, or a handler killed it. |
| `Widgets.KeyOf` | uiframework/widgets.py:53-59 | Enter means KEY_ENTER, LF or CR. Backspace means BS or DEL. Up and Down are the curses arrow codes. Every other code is a character carrying its code, never one of the named codes. |
| `Widgets.Button.constructor` | uiframework/widgets.py:21-26 | A new button is sized by `fit`. |
| `Widgets.Button.Focus` | uiframework/widgets.py:32-34 | Focus resets the pushed flag. |
| `Widgets.Button.Compose` | uiframework/widgets.py:37-39 | Emits exactly when pushed, with empty data. |
| `Widgets.Button.Operate` | uiframework/widgets.py:53-59 | Returns END exactly on Enter, which pushes the button. Every other key changes nothing. |
| `Widgets.Button.Fit` | uiframework/widgets.py:62-64 | The button is its label's length plus 4 wide and 1 high. |
| `Widgets.NextHighlight` | uiframework/widgets.py:85-89 | For an in-range highlight, Down gives the next index modulo the length, still in range. |
| `Widgets.PrevHighlight` | uiframework/widgets.py:92-96 | For an in-range highlight, Up gives the previous index modulo the length, still in range. |
| `Widgets.NextPrevInverse` | uiframework/widgets.py:85-96 | Up undoes Down, and Down undoes Up. |
| `Widgets.SelectionList.constructor` | uiframework/widgets.py:68-75 | No items, highlight 0, no selection. |
| `Widgets.SelectionList.Operate` | uiframework/widgets.py:80-102 | Always CONTINUE. Down and Up wrap the highlight and keep it in range. Enter selects the highlighted index. Every other key changes nothing. |
| `Widgets.StatusLine.constructor` | uiframework/widgets.py:141-158 | Empty mode and texts. |
| `Widgets.StatusLine.Operate` | uiframework/widgets.py:195-213 | END exactly on Enter in prompt or feedback mode. A confirmed prompt bubbles the empty data of a fresh signal, and no other key bubbles anything. The signal's name is not passed on. |
| `Widgets.StatusLine.DisplayFeedback` | uiframework/widgets.py:216-227 | Enters feedback mode with the message and error flag, and takes input focus. |
| `Widgets.StatusLine.PromptConfirm` | uiframework/widgets.py:230-241 | Enters prompt mode with the prompt and the signal to confirm, and takes input focus. |
| `Widgets.StatusLine.UpdateStatus` | uiframework/widgets.py:244-248 | Replaces the status and requests a redraw. |
| `Widgets.ShareTabList` | uiframework/widgets.py:272-274 | Every tab of the group gets the group's list. |
| `Widgets.ShowFirstTab` | uiframework/widgets.py:276-278 | The first tab of the group is shown and the others hidden. The tab lists are unchanged. |
| `Widgets.Tab.constructor` | uiframework/widgets.py:258-278 | The new tab joins its siblings' list last. All tabs of the group share that list. Only the first tab is shown. |
| `Widgets.Tab.Focus` | uiframework/widgets.py:281-285 | Every sibling is hidden and this tab is shown. The tab list is unchanged. |
| `Widgets.Text.constructor` | uiframework/widgets.py:351-365 | No lines. |
| `Widgets.Text.AddLine` | uiframework/widgets.py:375-382 | Appends exactly the one line. |
| `Widgets.Text.AddRaw` | uiframework/widgets.py:385-393 | Appends the newline-separated pieces of the text. None of them holds a newline, and rejoined with newlines they give back the text. |
| `Widgets.Label.constructor` | uiframework/widgets.py:409-421 | The text is the owner's label, and the label is sized to it. |
| `Widgets.Label.Embellish` | uiframework/widgets.py:424-433 | The text becomes prefix, owner's label, suffix, and the width follows. |
| `Widgets.Label.Fit` | uiframework/widgets.py:444-446 | The label is one row, as wide as its text. |
| `Widgets.TextField.constructor` | uiframework/widgets.py:534-541 | Empty and not obscured. |
| `Widgets.TextField.Compose` | uiframework/widgets.py:547-548 | Always emits, with exactly the key `text` holding the text. |
| `Widgets.TextField.Operate` | uiframework/widgets.py:567-578 | Always CONTINUE. A printable key appends its character. BS/DEL drops the last character, and does nothing on empty text. Every other key leaves the text unchanged. |
| `Widgets.TextField.Obscure` | uiframework/widgets.py:581-583 | The text is obscured. |
| `Widgets.TextField.Reveal` | uiframework/widgets.py:586-588 | The text is shown. |
| `Widgets.Pow10` | uiframework/widgets.py:609-613 | Powers of ten are positive. |
| `Widgets.DecimalValueBound` | uiframework/widgets.py:609-613 | A number of n digits is below 10^n. |
| `Widgets.DecimalValueDropLast` | uiframework/widgets.py:638-640 | Dropping the last digit divides the value by ten. |
| `Widgets.NumericField.constructor` | uiframework/widgets.py:598-603 | Empty buffer. |
| `Widgets.NumericField.Compose` | uiframework/widgets.py:609-613 | Emits exactly when the buffer is non-empty, carrying its integer value, or else None. |
| `Widgets.NumericField.Operate` | uiframework/widgets.py:631-642 | Always CONTINUE, and the buffer stays all digits. A digit key appends that digit (the value becomes ten times the old value plus the digit). BS/DEL drops the last digit (the value is divided by ten). Every other key changes nothing. |
| `Widgets.ExpandedCount` | uiframework/widgets.py:792-796 | The rows shown are the least of the limit (the parent's height when unlimited), the room below the field, and the number of options. |
| `Widgets.Scrolled` | uiframework/widgets.py:763-767 | With a window of at least one row, the highlight ends inside the window. The window moves only when the highlight left it, and then by the least amount. |
| `Widgets.SelectField.constructor` | uiframework/widgets.py:660-671 | The options are the "no selection" entry alone. The limit is -1. Highlight, initial highlight and scroll are 0. The field is collapsed. |
| `Widgets.SelectField.Compose` | uiframework/widgets.py:678-682 | Emits exactly when the highlight moved since focus. The option is None exactly for the first entry, else the highlighted option. An out-of-range highlight raises IndexError. |
| `Widgets.SelectField.Decompose` | uiframework/widgets.py:685-689 | Loads the options and refreshes the height when the field is expanded. |
| `Widgets.SelectField.Focus` | uiframework/widgets.py:692-701 | Records the highlight as the initial highlight and scrolls to it. Expands when automatic expansion is set. |
| `Widgets.SelectField.Blur` | uiframework/widgets.py:704-710 | Scrolls to the highlight. Collapses when automatic expansion is set, and otherwise changes nothing else. |
| `Widgets.SelectField.Operate` | uiframework/widgets.py:738-769 | END exactly on Enter, which moves nothing. Down and Up move the highlight by ±1 modulo the number of options. The scroll window then contains the highlight. |
| `Widgets.SelectField.AutoExpand` | uiframework/widgets.py:771-773 | Sets automatic expansion. |
| `Widgets.SelectField.Collapse` | uiframework/widgets.py:776-786 | Height 3, not expanded, not overlayed, ancestor redraw requested. |
| `Widgets.SelectField.Expand` | uiframework/widgets.py:789-801 | Expanded, with a height of `ExpandedCount` plus the border, never more rows than options. |
| `Widgets.SelectField.LimitOptions` | uiframework/widgets.py:804-813 | The limit stored is `max(1, count)`. The height is refreshed when expanded. |
| `Widgets.SelectField.LoadOptions` | uiframework/widgets.py:816-824 | The options become the "no selection" entry followed by the given ones, so the list is never empty. |
| `Widgets.TextFieldScenario` | uiframework/widgets.py:567-578 | Typing `h`, `i` and DEL leaves `h`, which `compose` emits. |
| `Widgets.SelectFieldScenario` | uiframework/widgets.py:748-756 | With three options loaded, Down walks 1, 2, 3 and wraps to 0. |
| `PyValues.Truthy` | mock_dbmanager.py:130-137 | A value is falsy exactly when it is None, False, 0, `''` or `[]`. |
| `PyValues.Strs` | mock_dbmanager.py:313-317 | A list of names as a Python list value, one string per name. |
| `PyStrings.Split` | tests/tabletest.py:27-28 | `split` gives one more piece than there are separators, none holding a separator. |
| `PyStrings.Join` | tests/tabletest.py:28 | `join` puts one separator between each two parts, so the result is the parts' total length plus one per gap, and starts with the first part. |
| `PyStrings.IsSpace` | tests/tabletest.py:27 | Among ASCII characters, `isspace` holds exactly for the space and the controls from tab to carriage return and from 0x1C to 0x1F. No visible ASCII character is whitespace. |
| `PyStrings.JoinSplit` | uiframework/widgets.py:385-393 | Joining the pieces of a split gives back the string. |
| `PyStrings.SplitAround` | tests/tabletest.py:27 | Splitting at one separator splits each side independently. |
| `PyStrings.SplitNoSeparator` | tests/tabletest.py:27 | A string without the separator splits into itself alone. |
| `PyStrings.SplitJoin` | tests/tabletest.py:27 | Splitting a join of separator-free pieces gives back the pieces. |
| `PyStrings.JoinAvoids` | tests/tabletest.py:28 | A character held by no piece, and different from the separator, is not in the join. |
| `PyStrings.JoinConsChar` | tests/tabletest.py:28 | A character prepended to the first piece is prepended to the join. |
| `PyStrings.TrimLeft` | tests/tabletest.py:27 | Removes exactly the leading whitespace. |
| `PyStrings.TrimRight` | tests/tabletest.py:27 | Removes exactly the trailing whitespace. |
| `PyStrings.StripStart` | tests/tabletest.py:27 | The first kept index lies within the string. |
| `PyStrings.Strip` | tests/tabletest.py:27 | `strip` gives the slice left after whitespace is removed at both ends, and it neither starts nor ends with whitespace. |
| `PyStrings.StripKeepsOut` | tests/tabletest.py:27 | Stripping adds no character. |
| `PyStrings.StripIdempotent` | tests/tabletest.py:27 | Stripping twice is stripping once. |
| `PyStrings.StripPadded` | tests/tabletest.py:27 | A word padded with whitespace strips back to itself. |
| `PyStrings.StripBlank` | tests/tabletest.py:27 | An all-whitespace string strips to nothing. |
| `DbCommon.Feedback` | tests/mock_dbmanager.py:162-179 | A `UI_FEEDBACK` signal carrying exactly a message and an error flag. |
| `DbCommon.Reject` | tests/mock_dbmanager.py:162-169 | A guard failure emits exactly one error feedback, changes no field, and returns a falsy default. |
| `DbCommon.Accept` | tests/mock_dbmanager.py:172-179 | A success emits exactly one non-error feedback. |
| `MockDbManager.ConnectOutcome` | mock_dbmanager.py:116-159 | Succeeds exactly when the hostname and the port are truthy, so port 0 fails. Each failure has its own message, returns False and changes nothing. Success stores the four credentials, connects, keeps the selection, and reports it. |
| `MockDbManager.DisconnectOutcome` | mock_dbmanager.py:162-186 | Succeeds exactly when connected. Failure emits the not-connected error and returns False. Success clears only the connection flag, keeps the selection, and emits exactly the feedback "Connection with server terminated" as a non-error. |
| `MockDbManager.SetDatabaseOutcome` | mock_dbmanager.py:189-235 | None unsets the database, emits exactly the non-error feedback "Database unset" and returns False. A name succeeds exactly when connected and it is a mock database. Disconnection is checked first. Each failure emits its own error message. Only success changes the current database, emitting exactly the non-error feedback that the name is set as current database. |
| `MockDbManager.SetTableOutcome` | mock_dbmanager.py:238-292 | None unsets the table with exactly the non-error feedback "Table unset". Otherwise the guards are connection (False), a selected database (`[]`, not False) and membership (False), each with its own error message. It succeeds exactly when all hold. Only then does it change the table, emitting exactly the non-error feedback that the name is set as current table. |
| `DbCommon.ListDatabasesOutcome` | mock_dbmanager.py:295-317 | Connected: emits and returns the mock database names. Otherwise `[]` with the not-connected error. |
| `DbCommon.ListTablesOutcome` | mock_dbmanager.py:320-349 | Connected with a database selected: emits and returns its tables. Otherwise `[]` with the not-connected or no-database error. |
| `MockDbManager.QueryRawOutcome` | mock_dbmanager.py:352-373 | Disconnected: `[]` with the not-connected error. Connected (and only then): emits the mock result and raises `NameError` on `result`. |
| `MockDbManager.QueryRawFixed` | mock_dbmanager.py:371-373 | The intended `query_raw`: never raises, emits what the as-written one emits, and returns the result it emitted. |
| `MockDbManager.DatabaseManager.constructor` | mock_dbmanager.py:64-71 | Port 5432, empty credentials, not connected, empty selections, nothing emitted. |
| `MockDbManager.DatabaseManager.Emit` | mock_dbmanager.py:101-113 | One signal is appended to what was emitted. |
| `MockDbManager.DatabaseManager.EmitFeedback` | mock_dbmanager.py:130-143 | One `UI_FEEDBACK` signal is appended. |
| `MockDbManager.DatabaseManager.Connect` | mock_dbmanager.py:116-159 | Fields, emitted signals and result follow `ConnectOutcome`. |
| `MockDbManager.DatabaseManager.Disconnect` | mock_dbmanager.py:162-186 | Fields, emitted signals and result follow `DisconnectOutcome`. |
| `MockDbManager.DatabaseManager.SetDatabase` | mock_dbmanager.py:189-235 | Fields, emitted signals and result follow `SetDatabaseOutcome`, and a selected database stays a mock database. |
| `MockDbManager.DatabaseManager.SetTable` | mock_dbmanager.py:238-292 | Fields, emitted signals and result follow `SetTableOutcome`. |
| `MockDbManager.DatabaseManager.ListDatabases` | mock_dbmanager.py:295-317 | Emitted signals and result follow `ListDatabasesOutcome`. Fields are unchanged. |
| `MockDbManager.DatabaseManager.ListTables` | mock_dbmanager.py:320-349 | Emitted signals and result follow `ListTablesOutcome`. Fields are unchanged. |
| `MockDbManager.DatabaseManager.QueryRaw` | mock_dbmanager.py:352-373 | Emitted signals and result or exception follow `QueryRawOutcome`. |
| `TestsMockDbManager.InitialCoherent` | tests/mock_dbmanager.py:107-114 | The initial fields are coherent, with nothing connected or selected. |
| `TestsMockDbManager.ConnectOutcome` | tests/mock_dbmanager.py:182-218 | Succeeds exactly when the hostname and port are truthy. Each failure has its own error and returns False, changing nothing. Success stores the credentials, connects, and reports it. |
| `TestsMockDbManager.DisconnectOutcome` | tests/mock_dbmanager.py:221-242 | Succeeds exactly when connected. Failure emits the not-connected error and returns False. Success clears only the connection flag and emits exactly the success feedback "Connection with server terminated". |
| `TestsMockDbManager.ImportDbOutcome` | tests/mock_dbmanager.py:245-265 | Needs a connection, else False with the "Not connected to a server" error. Success reports and returns None. |
| `TestsMockDbManager.ExportDbOutcome` | tests/mock_dbmanager.py:268-291 | Succeeds exactly when connected with a database selected, reporting and returning None. Each failure returns False with its own error: "Not connected to a server", then "No database selected". |
| `TestsMockDbManager.SetDatabaseOutcome` | tests/mock_dbmanager.py:294-327 | None unsets the database, emits exactly the success feedback "Database unset" and returns False. Each failure emits its own error message. A name succeeds exactly when connected and known. Success emits `UI_SET_DATABASE` and then the success feedback. Failures change nothing. |
| `TestsMockDbManager.SetTableOutcome` | tests/mock_dbmanager.py:330-368 | None unsets the table with exactly the success feedback "Table unset". Every guard failure emits its own error message, returns False (never `[]`) and changes nothing. Success sets the table and emits `UI_SET_TABLE` and then the success feedback. |
| `TestsMockDbManager.ListTableOutcome` | tests/mock_dbmanager.py:429-449 | The data is returned and emitted exactly when the table is available. Otherwise `[]` with the guard's own error (not connected, no table selected, or the table not found in the current database), except that a set table without a database raises `KeyError(None)` emitting nothing. |
| `TestsMockDbManager.ListTableContentOutcome` | tests/mock_dbmanager.py:422-449 | The mock content is returned and emitted as `UI_TABLE_CONTENT` exactly when the table is available. |
| `TestsMockDbManager.ListTableStructureOutcome` | tests/mock_dbmanager.py:452-479 | The mock structure is returned and emitted as `UI_TABLE_STRUCTURE` exactly when the table is available. |
| `TestsMockDbManager.QueryRawOutcome` | tests/mock_dbmanager.py:482-505 | Disconnected: `''` with the not-connected error. Connected: emits `UI_RAW_QUERY` with the mock result and returns it. |
| `TestsMockDbManager.ConnectionKeepsCoherent` | tests/mock_dbmanager.py:182-242 | Connecting and disconnecting keep the session coherent. |
| `TestsMockDbManager.SelectionKeepsCoherent` | tests/mock_dbmanager.py:294-368 | Selecting or unselecting a database or a table keeps the session coherent. |
| `TestsMockDbManager.StaleTableSession` | tests/mock_dbmanager.py:294-368 | connect, `set_database("Book Store")`, `set_table("Book")` and `set_database(None)` reach a coherent session. |
| `TestsMockDbManager.StaleTableRaises` | tests/mock_dbmanager.py:436 | In that session, listing the content or the structure raises `KeyError(None)`. |
| `TestsMockDbManager.ListTableFixed` | tests/mock_dbmanager.py:429-449 | With the "No database selected" guard added, listing never raises. It yields the data exactly when the table is available and then agrees with the original. Otherwise `[]` with one error. |
| `TestsMockDbManager.DatabaseManager.constructor` | tests/mock_dbmanager.py:107-114 | Initial fields, coherent, nothing emitted. |
| `TestsMockDbManager.DatabaseManager.Emit` | tests/mock_dbmanager.py:147-159 | One signal is appended to what was emitted. |
| `TestsMockDbManager.DatabaseManager.EmitError` | tests/mock_dbmanager.py:162-169 | One error `UI_FEEDBACK` signal is appended. |
| `TestsMockDbManager.DatabaseManager.EmitSuccess` | tests/mock_dbmanager.py:172-179 | One non-error `UI_FEEDBACK` signal is appended. |
| `TestsMockDbManager.DatabaseManager.Connect` | tests/mock_dbmanager.py:182-218 | Follows `ConnectOutcome`. |
| `TestsMockDbManager.DatabaseManager.Disconnect` | tests/mock_dbmanager.py:221-242 | Follows `DisconnectOutcome`. |
| `TestsMockDbManager.DatabaseManager.ImportDb` | tests/mock_dbmanager.py:245-265 | Follows `ImportDbOutcome`. |
| `TestsMockDbManager.DatabaseManager.ExportDb` | tests/mock_dbmanager.py:268-291 | Follows `ExportDbOutcome`. |
| `TestsMockDbManager.DatabaseManager.SetDatabase` | tests/mock_dbmanager.py:294-327 | Follows `SetDatabaseOutcome` and keeps the session coherent. |
| `TestsMockDbManager.DatabaseManager.SetTable` | tests/mock_dbmanager.py:330-368 | Follows `SetTableOutcome` and keeps the session coherent. |
| `TestsMockDbManager.DatabaseManager.ListDatabases` | tests/mock_dbmanager.py:371-392 | Follows `ListDatabasesOutcome`. |
| `TestsMockDbManager.DatabaseManager.ListTables` | tests/mock_dbmanager.py:395-419 | Follows `ListTablesOutcome`. |
| `TestsMockDbManager.DatabaseManager.EmitTable` | tests/mock_dbmanager.py:429-449 | The emitted signals and the result or exception follow `ListTableOutcome`. |
| `TestsMockDbManager.DatabaseManager.ListTableContent` | tests/mock_dbmanager.py:422-449 | Follows `ListTableContentOutcome`. |
| `TestsMockDbManager.DatabaseManager.ListTableStructure` | tests/mock_dbmanager.py:452-479 | Follows `ListTableStructureOutcome`. |
| `TestsMockDbManager.DatabaseManager.QueryRaw` | tests/mock_dbmanager.py:482-505 | Follows `QueryRawOutcome`. |
| `TableTest.Cells` | tests/tabletest.py:27 | The cells of a row line: the stripped pieces between its first and last bar. What they are is stated by `CellCount`, `CellsStripped` and `CellsFrameRoundTrip`. |
| `TableTest.CellCount` | tests/tabletest.py:27 | A row has one cell fewer than it has bars, and none without a bar. |
| `TableTest.Rows` | tests/tabletest.py:26-30 | The only failure is IndexError, raised at once by an empty first line. A success has at most one row per line. |
| `TableTest.AsciiToTable` | tests/tabletest.py:15-30 | The only failure is IndexError. A success has at most one row per line of the text. |
| `TableTest.StripEach` | tests/tabletest.py:27 | Strips every item, one for one. |
| `TableTest.RowLines` | tests/tabletest.py:29 | Keeps exactly the lines that start with a bar, and all lines when every one does. |
| `TableTest.RowLinesAppend` | tests/tabletest.py:29 | The row lines of two spans of lines are those of the first span, then those of the second, so the order is kept. |
| `TableTest.CellsEach` | tests/tabletest.py:26-28 | The cells of every line, one for one. |
| `TableTest.RowsOfRowLines` | tests/tabletest.py:26-30 | The parse fails, with IndexError, exactly when some line is empty. Otherwise the rows are, one for one and in order, the cells of the lines starting with a bar. The `+---+` lines are dropped. |
| `TableTest.AsciiToTableRows` | tests/tabletest.py:15-30 | `asciiToTable` fails exactly when the text has an empty line, and otherwise yields the cells of its bar lines in order. |
| `TableTest.CellsStripped` | tests/tabletest.py:27 | No cell holds a bar or has leading or trailing whitespace. |
| `TableTest.FramePieces` | tests/tabletest.py:27 | A row framed in bars splits into an empty piece, the cells, and an empty piece. |
| `TableTest.CellsOfFrame` | tests/tabletest.py:27 | Parsing a framed row gives its cells, stripped. |
| `TableTest.CellsFrameRoundTrip` | tests/tabletest.py:27 | A framed row of stripped bar-free cells parses back to exactly those cells. |
| `TableSample.Spaces` | tests/tabletest.py:5-11 | n spaces. |
| `TableSample.Dashes` | tests/tabletest.py:4 | n dashes. |
| `TableSample.Pad` | tests/tabletest.py:5-11 | A padded cell is exactly its column's width. |
| `TableSample.PadKeepsOut` | tests/tabletest.py:5-11 | Padding adds only spaces. |
| `TableSample.StripPad` | tests/tabletest.py:27 | A padded word strips back to the word. |
| `TableSample.PaddedCells` | tests/tabletest.py:5-11 | One padded cell per column. |
| `TableSample.BodyLines` | tests/tabletest.py:7-11 | One line per body row. |
| `TableSample.RowTextParses` | tests/tabletest.py:26-29 | A printed row is a non-empty bar line without newlines that parses back to its words. |
| `TableSample.BorderLine` | tests/tabletest.py:29 | A border line is non-empty and is not a row line. |
| `TableSample.RowLinesThenBorder` | tests/tabletest.py:29 | A border after row lines is dropped. |
| `TableSample.LinesAreLines` | tests/tabletest.py:28 | Every printed line is non-empty and newline-free. |
| `TableSample.RowLinesOfLines` | tests/tabletest.py:29 | The row lines of a printed table are its header and body rows, in order. |
| `TableSample.PrettyPrint` | tests/tabletest.py:3-12 | The printed text starts with the top border. |
| `TableSample.RowTextsParse` | tests/tabletest.py:26-28 | The printed header and body lines parse, one for one, back into the table's rows. |
| `TableSample.PrettyPrintParses` | tests/tabletest.py:15-30 | Every printable table parses back into exactly its rows. |
| `TableSample.PlainRowFits` | tests/tabletest.py:5-11 | A row of visible words, each narrower than its column, fits the table. |
| `TableSample.SampleRowFits` | tests/tabletest.py:5-11 | Each row of the sample fits the columns. |
| `TableSample.SampleTableParses` | tests/tabletest.py:3-13 | The sample parses into 6 rows of 6 cells, the header `Field … Extra` first. |

## Left out

- The `draw` methods of every widget: curses rendering.
- `uiframework/core.py` is not part of this model. The model leaves out:
  - widget geometry, the focus loop, translators and forms;
  - `tag_redraw`, `resize`, `show`/`hide`, the parent's height, the ancestor redraw and `Widget.input_focus`, which become plain fields;
  - signal bubbling, which becomes the `bubbled` field of `StatusLine`.
- Widget `report` methods: constant usage strings.
- Weak-reference expiry. Handlers are identity values that stay alive. Garbage collection and the crash on a dead reference at signals.py:125 are not modelled.
- A handler that forwards another signal while it runs. Nested forwarding is not modelled; handlers may only subscribe, unsubscribe or kill.
- The data a handler receives. `Forward` returns the handlers it invokes, not what they do with `signal.data`.
- `SignalRouter.print`: console output.
- `Signal.data` is an immutable map. In-place mutation of the data dict, which its getter hands out live (signals.py:47-49), and the `dict()` default shared between signals built without data (signals.py:23), are not modelled.
- `Widgets.Button.constructor`: the source never initialises `_is_pushed`, so `compose` before `focus` would raise `AttributeError`. The model starts the flag as false.
- `Widgets.StatusLine.constructor`: the source starts `_error` as `''`. The model uses `false`, which is just as falsy.
- The `StatusLine` timer and the `UI_UPDATE_STATUS` timestamp: clock-driven drawing state.
- `Widgets.Tab.constructor`: the tabs among the parent's children are taken as a parameter. Finding them through the core is not modelled.
- `Widgets.SelectField.Expand`: the parent's height and the field's row are constants. Resize clamping in the core is not modelled.
- The database managers' signal-router wiring: `__init__` registration, `__del__`, `_add_signal_handler`, `_registration_log` and `_dbname`. `_emit` appends to an `outbox` instead of calling a router.
- The `**kwargs` parameters of the handlers: they are ignored by the source.
- Database and table names are modelled as `Option<string>` (None or a string). Non-string arguments are not modelled.
- `mock_pretty_print` in tests/mock_dbmanager.py: it is not used by any handler.
- `TableSample.SampleTableParses`: the sample text is built from its rows and column widths by `PrettyPrint`. It is not written out character for character.
- dbmanager.py, tests/beta_dbmanager.py, tests/new_dbmanager.py, tests/db_test.py, ui.py, main.py and uiframework/__init__.py are not part of this model. They are database drivers, subprocesses, invalid Python, live-database scripts, screen wiring and re-exports.

## Findings

The class methods follow the code as written. The corrected functions state
what the code evidently intends.

| source | as written | input that shows it | evidently intended | confidence | as-written member | corrected member |
|---|---|---|---|---|---|---|
| mock_dbmanager.py:373 | `query_raw` returns the undefined name `result` once connected, so it raises `NameError` after emitting `UI_RAW_QUERY` | `connect("localhost", 5432, "u", "p")` then `query_raw("SELECT 1")` | return the mock result it emitted, as tests/mock_dbmanager.py:505 does | not executed | `MockDbManager.QueryRawOutcome` | `MockDbManager.QueryRawFixed` |
| tests/mock_dbmanager.py:436 | `list_table_content` (and `list_table_structure` at line 466) looks up `mock_databases[None]` when a table is still set after the database was unset, raising `KeyError` | `connect(…)`, `set_database("Book Store")`, `set_table("Book")`, `set_database(None)`, `list_table_content()` | a "No database selected" error and `[]`, as `list_tables` does | not executed | `TestsMockDbManager.StaleTableRaises` | `TestsMockDbManager.ListTableFixed` |
