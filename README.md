# Transactional key-value store and its command interpreter

This project models, in Dafny, the in-process key-value database of
`db.py` and the command layer of `app.py` that drives it.

- **The database** (`Db`). The live `Data` mapping from strings to strings sits beside a
  stack of snapshots, one for each open transaction. `begin` pushes a copy of the data.
  `rollback` pops the newest snapshot back into the data, and does nothing when no
  transaction is open. `commit` forgets every snapshot and keeps the data. The class
  `Db.DataBase` has `data` and `transactions` fields, and its methods update them in place.
  Each method is proved to act as a pure function on `Db.DbState` (`BeginState`,
  `RollbackState`, `CommitState`). The stack laws are lemmas about those functions.
  Dafny values are immutable, so a snapshot can never alias the live data. This is the
  deep copy of db.py:37.
- **The dictionary** (`Dicts`). `Data` is a `UserDict`, which keeps keys in insertion
  order. FIND prints keys in that order, so `Data` is modelled as a list of entries whose
  keys are pairwise distinct. `AsMap` gives the plain mapping. Assignment (`SetItem`),
  `pop`, lookup, value counting and the FIND comprehension are each proved against that
  mapping.
- **Text builtins** (`Text`). `str.split(' ')`, `' '.join` and `str(n)` are modelled
  because parsing and output depend on them.
- **Commands** (`Commands`). The nine handler classes become one datatype, `Command`. Its
  `Method` function gives each class's registered name. `Parse` is `Command.parse`, and
  `Resolve` is `Handler.get_command` over a registry map. `Step` gives each handler's
  output (`Outcome`) and the state it leaves. `Disposition` is what the `try`/`except` of
  the read loop does with an outcome.
- **Application objects** (`Application`). `Handler` is a class whose registry map is
  filled by `RegisterCommand`. `App.Execute` runs one handler against the `DataBase`
  object in place. `App.HandleLine` is one pass of the read loop. `App.Start` runs the
  loop over a given list of input lines. Each is proved equal to the value-level
  functions above.
- **Command scripts** (`Scripts`). Each command acts on the state as one operation of
  `Transactions`, so the laws about operation scripts carry over to sequences of commands.
- **Scenarios** (`Scenarios`). Two concrete command sequences: the COUNTS/FIND example
  and nested BEGIN/ROLLBACK.

Behaviour kept exactly as app.py has it:

- UNSET of an absent key calls `dict.pop` without a default (app.py:150). It raises
  `KeyError`, which the loop does not catch, so the interpreter stops. The model follows
  the code: `UnsetData` returns `KeyError`, and `Disposition` turns it into `Crash`.
- SET with more than two arguments fails at `key, val = args` (app.py:125) with a
  `ValueError`. This is `TooManyValues(2)`, which also escapes the loop.
- GET, UNSET, COUNTS and FIND with no argument raise `CommandParseException("Not enough
  args")`, which is logged. So is SET with fewer than two arguments. Extra arguments to
  GET, UNSET, COUNTS and FIND are ignored, as are any arguments to BEGIN, ROLLBACK,
  COMMIT and END.
- `Command.parse` splits on every single space. Two adjacent spaces give an empty
  argument, and a line of only spaces gives the command name `""`, which is not
  registered.

## Model

| member | source | states |
|---|---|---|
| `Db.DataBase.constructor` | db.py:25-27 | A new database holds the given data and has no open transaction |
| `Db.DataBase.ClearTransactions` | db.py:33-34 | The snapshot stack becomes empty and the data is unchanged |
| `Db.DataBase.Begin` | db.py:36-37 | Pushes the current data onto the stack and leaves the data unchanged; equals `BeginState` |
| `Db.DataBase.Rollback` | db.py:39-41 | On a non-empty stack, the data becomes the former top and the stack shrinks by one; on an empty stack nothing changes; equals `RollbackState` |
| `Db.DataBase.Commit` | db.py:43-44 | The stack becomes empty and the data is kept; equals `CommitState` |
| `Db.BeginPushesData` | db.py:36-37 | `begin` grows the stack by exactly one, its top is the current data, the older snapshots and the data are unchanged |
| `Db.BeginThenRollback` | db.py:36-41 | A rollback right after a begin gives back the exact prior state |
| `Db.RollbackRestores` | db.py:39-41 | Rollback restores the top snapshot and drops it; on an empty stack it is a no-op and repeating it is idempotent |
| `Db.CommitForgetsHistory` | db.py:33-44 | Commit empties the stack, keeps the data, and a following rollback changes nothing |
| `Transactions.SnapshotsKept` | db.py:36-41 | Writes and balanced begin/rollback pairs above the open snapshots never change them, and the stack depth changes by the number of begins minus rollbacks |
| `Transactions.RollbackUndoesTransaction` | db.py:36-41 | BEGIN, any body balanced in begins and rollbacks, then ROLLBACK, gives back the state before the BEGIN, including the outer snapshots |
| `Transactions.NestedBeginsRollbacks` | db.py:36-41 | For every n, n begins then n rollbacks, with any writes after each begin and before each rollback, restore the state before the first begin |
| `Transactions.RollbacksOnEmptyStack` | db.py:39-41 | With no open transaction, any number of rollbacks leaves the state unchanged |
| `Transactions.CommitThenRollbacks` | db.py:39-44 | After a commit, rollbacks change nothing, so writes made before the commit survive |
| `Text.Split` | app.py:101 | `str.split(' ')` always yields at least one part, and no part contains the separator |
| `Text.JoinSeparators` | app.py:162 | `' '.join` starts with the first part, and joining n space-free parts puts exactly n - 1 spaces into the result |
| `Text.JoinSplit` | app.py:99-102 | Joining the parts of `s.split(' ')` with single spaces reconstructs `s` exactly |
| `Text.SplitJoin` | app.py:99-102 | Splitting a join of space-free parts gives back the parts |
| `Text.Decimal` | app.py:138 | `str(n)` is a non-empty string of digits without leading zero whose decimal value is `n` |
| `Dicts.Get` | app.py:114 | A lookup finds a value exactly when the key is in the mapping, and that value is the bound one |
| `Dicts.SetItem` | app.py:126 | `d[k] = v` binds `k` to `v` and leaves every other key unchanged; a new key is appended after the existing ones |
| `Dicts.Pop` | app.py:150 | `d.pop(k)` fails exactly when `k` is absent; otherwise it returns the bound value and removes only `k`, keeping the others in order |
| `Dicts.CountValue` | app.py:138 | `list(values).count(v)` is the multiplicity of `v` among the values, never more than the number of keys |
| `Dicts.KeysWithValue` | app.py:162 | The FIND comprehension lists exactly the keys bound to the value, each once, in insertion order |
| `Dicts.KeysWithValueCount` | app.py:133-162 | FIND lists as many keys as COUNTS counts values |
| `Dicts.CountValueIsMatchingKeys` | app.py:138 | `list(values).count(v)` is the number of keys bound to `v` |
| `Commands.MethodNamesExact` | app.py:105-198 | The nine commands have nine distinct `method` names, all among the registered ones |
| `Commands.Parse` | app.py:99-102 | `Command.parse`: the method and the arguments contain no space, and joining them with single spaces gives back the line |
| `Commands.ParseJoin` | app.py:99-102 | Parsing a line built from space-free words gives back the name and the arguments |
| `Commands.Resolve` | app.py:68-71 | `get_command` succeeds exactly when the name is registered, with the command registered under it, and otherwise fails with NoCommandFoundException naming the key |
| `Commands.ResolveBuiltins` | app.py:68-75 | The registry holds exactly the nine names, each bound to the command whose `method` it is; any other name fails with NoCommandFoundException |
| `Commands.GetOutput` | app.py:109-114 | GET with no argument raises the parse error; otherwise it prints the bound value or the empty line |
| `Commands.SetData` | app.py:121-126 | SET with fewer than two arguments raises the parse error, with more than two a ValueError; with two it binds the key to the value and changes nothing else |
| `Commands.UnsetData` | app.py:145-150 | UNSET with no argument raises the parse error; for an absent key KeyError; otherwise it removes only that key |
| `Commands.CountsOutput` | app.py:133-138 | COUNTS with no argument raises the parse error; otherwise it prints the number of keys bound to the value |
| `Commands.FindOutput` | app.py:157-162 | FIND with no argument raises the parse error; otherwise it prints a line, empty when no key holds the value, non-empty only when some key does, and starting with the first matching key |
| `Commands.FindListsMatchingKeys` | app.py:157-162 | FIND prints exactly the keys bound to the value, joined by single spaces in insertion order; it lists as many as COUNTS counts, and prints the empty line when there are none |
| `Commands.Step` | app.py:105-198 | Only GET, SET, UNSET, COUNTS and FIND raise, and a raise leaves the state unchanged; a handler prints exactly when it is GET, COUNTS or FIND with an argument; exactly END stops |
| `Commands.StepFrame` | app.py:109-198 | GET, COUNTS, FIND and END never change the state, and no command other than BEGIN, ROLLBACK and COMMIT touches the snapshot stack |
| `Commands.ControlCommands` | app.py:165-198 | BEGIN, ROLLBACK and COMMIT ignore their arguments and act as the database methods; END only signals termination |
| `Commands.SetThenGet` | app.py:109-126 | After `SET k v`, GET of `k` prints `v` and GET of any other key prints what it printed before |
| `Commands.UnsetThenGet` | app.py:109-150 | After UNSET of a present key, GET of it prints the empty line and other keys are unaffected |
| `Commands.StepKeepsKeysSpaceFree` | app.py:105-198 | Commands given parsed (space-free) arguments never store a key containing a space, in the data or in any snapshot |
| `Commands.RunLineFrame` | app.py:36-38 | A line that raises leaves the state unchanged, and a line changes the snapshot stack only when its first word names BEGIN, ROLLBACK or COMMIT |
| `Commands.RunLineKeepsKeysSpaceFree` | app.py:36-38 | Every parsed line keeps all stored keys free of spaces, so FIND's output always splits back into its keys |
| `Commands.RunLineDispatch` | app.py:36-38 | A line of space-free words runs the command registered under its first word, or fails with NoCommandFoundException and leaves the state unchanged |
| `Commands.Disposition` | app.py:36-43 | The loop stops cleanly exactly on END; it escapes exactly on an exception that is no CommandException, carrying that exception; a CommandException is always logged with its message and the loop goes on; a printed or silent outcome lets the loop go on |
| `Commands.UnsetMissingKeyCrashes` | app.py:145-150 | Any line parsed as UNSET whose first argument is an absent key raises KeyError for that key, which escapes the loop, and the state is kept |
| `Commands.SetTooManyRaises` | app.py:121-126 | SET with three or more arguments raises a ValueError and keeps the state |
| `Commands.SetTooManyCrashes` | app.py:121-126 | Any line parsed as SET with three or more arguments raises a ValueError, which escapes the loop |
| `Commands.ShortOrUnknownIsLogged` | app.py:36-40 | A bare SET and an unknown name are only logged, and the state is kept |
| `Application.Handler.constructor` | app.py:54-55 | The registry built by the nine decorations is exactly the nine-name registry |
| `Application.Handler.RegisterCommand` | app.py:73-75 | Registration binds the command's `method` name to it and leaves the other names unchanged |
| `Application.Handler.GetCommand` | app.py:68-71 | `get_command` returns the registered command when the key is present, and otherwise fails with NoCommandFoundException naming the key |
| `Application.App.constructor` | app.py:25-28 | The app keeps the given database and a registry holding the nine commands |
| `Application.App.Execute` | app.py:105-198 | Running a handler in place on the database gives exactly the output and new state of `Step` |
| `Application.App.HandleLine` | app.py:33-43 | An empty line is skipped; any other line is parsed, resolved and executed, and the loop action is its disposition |
| `Application.SessionShape` | app.py:30-43 | A session that ends normally prints "Bye!" last, a crash is always an exception that is no CommandException, and each input line prints at most one line |
| `Application.SessionStep` | app.py:30-43 | One input line of the loop either lets the session go on from the next line, adding what it printed, or ends it with "Bye!" or a crash |
| `Application.App.Start` | app.py:30-43 | The loop over the input lines prints, ends and leaves the database exactly as `RunSession` says |
| `Application.EndStopsSession` | app.py:166-171 | Lines after an END (empty lines before it are skipped) are never run: the session prints "Bye!" and keeps the state |
| `Scripts.StepIsApply` | app.py:165-198 | Every command changes the state as one database operation does: BEGIN, ROLLBACK and COMMIT as the db.py methods, every other command as a rewrite of the live data only |
| `Scripts.StepsAreRun` | db.py:36-44 | Executing a sequence of commands leaves the state that running the script of their operations leaves |
| `Scripts.ScriptOfAppend` | app.py:30-43 | Executing two sequences of commands one after the other is executing their concatenation |
| `Scripts.NoControlOnlyWrites` | app.py:105-162 | Commands other than BEGIN, ROLLBACK and COMMIT never open or close a transaction |
| `Scripts.BeginWritesRollback` | db.py:36-41 | BEGIN, then any commands other than BEGIN, ROLLBACK and COMMIT, then ROLLBACK gives back the state before the BEGIN |
| `Scenarios.CountingExample` | app.py:121-162 | `SET a 10`, `SET b 10`, `COUNTS 10` prints 2; after `UNSET a`, `COUNTS 10` prints 1 and `FIND 10` prints `b` |
| `Scenarios.NestedRollbackExample` | db.py:36-41 | After BEGIN; SET a 1; BEGIN; SET a 2; ROLLBACK, GET a prints 1; a second ROLLBACK restores the state before the first BEGIN |

## Left out

- Terminal I/O in `App.start` (app.py:30-43): the `'>'` prompt and the blocking `input()`
  are replaced by a list of lines given as a parameter. An end of input is treated like
  `EOFError`: it prints "Bye!". A `KeyboardInterrupt` from the terminal cannot occur
  between given lines. An uncaught exception is a `Crashed` exit, not a traceback.
- Logging (app.py:40, 97): `logging.error` and `logging.debug` write only diagnostics.
  A logged CommandException appears only as `LogAndProceed(msg)`. Logged messages are not
  collected in a session's printed lines.
- The back-pointer wiring `Handler.app` and `cmd.handler` (app.py:25-28, 58-66), and the
  `functools.wraps` wrapper that `register_command` returns (app.py:76-79). These are
  object-graph plumbing. `App.Execute` acts on the app's `db` directly.
- `Handler._commands` is a class-level dictionary shared by every `Handler` instance
  (app.py:55). Here it is a field of one `Handler` object. Only one `Handler` is ever made.
- The `data` property and setter of `AbstractDB` (db.py:15-20) and the misspelled
  `transatinos` property (db.py:29-31) are plain field access. They are the `data` and
  `transactions` fields.
- Python's `KeyError` and `ValueError` messages are not modelled. They are carried as
  `KeyError(key)` and `TooManyValues(2)`.
- python-task.py and python-task2.py are abandoned drafts. Their commands only log or
  print placeholder text, and neither has transaction logic. run.py only wires a
  `DataBase(Data())` into an `App` and starts it.
