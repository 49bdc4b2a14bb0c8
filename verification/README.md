# Car-rental database CLI — a Dafny model

`db_cli.php` is a small administration console for an Oracle schema with six
tables: branches, cars, customers, rentals, billing and maintenance. At start-up
it copies the `KEY=VALUE` lines of a `.env` file into the process environment.
It then loops over a text menu:

1. drop all tables;
2. create them;
3. seed them with sample rows;
4. run one query typed by the user;
5. exit.

Every action opens a fresh connection from `DB_USER`, `DB_PASS` and `DB_DSN`,
runs its statements one by one with "log and continue" error handling, and closes
the connection again.

The model is a set of pure functions:

- `PhpStrings` and `PhpCompare` give the PHP built-ins the script relies on:
  `trim`, `explode` with a limit of 2 padded by `array_pad`, the `?:` operator,
  and the loose `==` that `switch` uses.
- `EnvLoader` models the `.env` loader. Each line is trimmed, blank lines and
  comments are skipped, and the line is split at its first `=`. The assignments
  are applied in file order. `putenv` may refuse an assignment, which ends the
  process.
- `Credentials` models how `connectToDatabase` reads the credentials and the
  default connect descriptor.
- `Executor` models `executeQuery`, `queryData` and the `foreach` over a script.
  The driver is an oracle with a parse, an execute and a fetch phase. Each run
  records its effects (parse, execute, printed lines, rows, free), so the
  statement lifecycle can be stated exactly.
- `Schema` gives the three statement kinds of the scripts a semantics over a store
  that records, per table, its foreign-key references and the primary keys of
  its rows. The statement kinds are a `DROP ... CASCADE CONSTRAINTS` wrapped in a
  PL/SQL block that swallows errors, `CREATE TABLE`, and `INSERT`.
- `Scripts` holds the three literal statement lists, with the keys and foreign
  keys copied from the source. It proves what running them does.
- `Menu` models the loop as a fold over the input lines that yields a trace of
  events, an exit status and the final store. `Program` puts the loader in
  front of it. `Menu.Switch` writes the `switch` out as its chain of loose
  comparisons; the loop uses `Menu.Choose`, which reads the choice as a number
  once, and `Menu.ChooseIsSwitch` proves the two select the same entry.

Behaviour of the code that is easy to miss:

- A failed `oci_connect` prints `Connection failed: ` and the driver's message on
  standard output, not on the error stream. When the driver gives no message,
  the line ends after the colon; it does not print "unknown".
- Besides menu entry 5 and a credential or connection failure, the process
  also ends with status 255 when `putenv` throws a `ValueError`. That happens
  for an empty key (a line that starts with `=`). It also happens for a NUL
  byte inside a line, because `putenv` reads its argument as a path-like
  string, and PHP 8 refuses such a string when it holds a NUL byte.
- The default descriptor is used when `DB_DSN` is unset, empty or `"0"`, not
  only when it is absent. The same `?:` rule makes a user or password of `"0"`
  count as missing.
- The `switch` compares with loose `==`. Any numeric string of the same value
  selects the case: `01` selects entry 1.

## Model

| member | source | states |
|---|---|---|
| PhpStrings.TrimStripsBlanks | db_cli.php:12 | the result has no leading or trailing blank (space, tab, newline, CR, NUL, vertical tab), and it is the input with blank-only padding removed on both sides |
| PhpStrings.TrimIdempotent | db_cli.php:12 | trimming twice gives the same as trimming once |
| PhpStrings.TrimIgnoresPadding | db_cli.php:12 | a trimmed non-empty text padded on either side with blanks trims back to itself |
| PhpStrings.SplitFirst | db_cli.php:14 | the key part never holds the separator; with a separator present, key + separator + value gives back the input; without one, the value is empty |
| PhpStrings.SplitFirstOfJoin | db_cli.php:14 | splitting `head = tail` at the first separator gives back `head` and `tail` whenever `head` has no separator, even when `tail` has some |
| EnvLoader.ParseLine | db_cli.php:12-14 | a line is skipped exactly when it is blank or a comment after trimming; otherwise the key has no `=`, key `=` value rebuilds the trimmed line, and a line without `=` gives the whole line as key with an empty value |
| EnvLoader.ParseLineOfAssignment | db_cli.php:12-14 | round trip: writing an assignment as `key=value` and reading it back gives the same key and value |
| EnvLoader.PaddedAssignment | db_cli.php:12-14 | the round trip still holds with blanks before and after the written line |
| EnvLoader.SpacesAroundEqualsAreKept | db_cli.php:14 | `  A = B ` followed by a newline assigns the key "A " the value " B": key and value are not trimmed on their own |
| EnvLoader.LoadRejectsFirstRefused | db_cli.php:11-15 | loading completes exactly when no line is refused by `putenv`; otherwise it stops at the first refused line |
| EnvLoader.NulByteRefused | db_cli.php:14-15 | a written assignment whose value holds a NUL byte is refused by `putenv`, and loading stops at that line |
| EnvLoader.LoadLastWins | db_cli.php:11-15 | after loading, a key takes its value from the last line that assigns it; a key no line assigns keeps its inherited value or stays unset |
| Credentials.Resolve | db_cli.php:21-31 | credentials are missing exactly when the user or the password is unset, "" or "0"; otherwise they are used as set, and the descriptor is `DB_DSN` when set, not "" and not "0", and the default literal otherwise |
| Credentials.ZeroUserIsMissing | db_cli.php:21-31 | a user name of "0" is treated as missing |
| PhpCompare.DigitStringsCompareByValue | db_cli.php:286-315 | two digit strings are loosely equal exactly when their decimal values are equal |
| PhpCompare.LeadingZerosValue | db_cli.php:286-315 | leading zeros do not change the value of a digit string |
| PhpCompare.NoDigitsComparesAsText | db_cli.php:286-315 | a string with no digit is loosely equal to another exactly when the two are identical |
| Executor.ExecuteQuery | db_cli.php:43-57 | a parse failure reports the driver's message, or "unknown", and leaves the database alone; after a parse, the outcome succeeds exactly when execution does, a failed execution reports its message, and the database is the one execution left |
| Executor.ExecuteQueryLifecycle | db_cli.php:43-57 | a statement is parsed once, first; after a parse failure it is neither executed nor freed; after a parse it is executed once and freed exactly once, last; a failure line is printed on failure and the success line on success; no row is printed |
| Executor.QueryData | db_cli.php:255-267 | the same parse and execute outcomes as `executeQuery` |
| Executor.QueryDataLifecycle | db_cli.php:255-272 | same lifecycle as `executeQuery`, including a free after a failed execution; on failure no row is printed; on success every fetched row is printed, in order, between the execute and the free |
| Executor.RunAllCounts | db_cli.php:69-76 | a script of n statements parses n times whatever the outcomes; frees plus parse failures add up to n; no row is printed |
| Executor.RunAllInOrder | db_cli.php:154-156 | the i-th outcome is what the i-th statement does on the database the first i statements left |
| Executor.RunAllAppend | db_cli.php:248-250 | running two lists one after the other is the same as running their concatenation |
| Executor.RunScriptSummary | db_cli.php:154-157 | every statement of a script is attempted, and the summary line comes last whatever the outcomes |
| Schema.ApplyPreservesWellFormed | db_cli.php:70-74 | no statement leaves a foreign key pointing at a table that does not exist, because a cascading drop removes the constraints on the dropped table |
| Schema.DropAlwaysSucceeds | db_cli.php:70-74 | the wrapped drop succeeds from any state; it removes exactly its table and leaves every other table's rows and columns in place |
| Schema.CreateSucceedsIff | db_cli.php:84-151 | a create succeeds exactly when the table is new and every table it references exists; the new table is empty |
| Schema.InsertSucceedsIff | db_cli.php:164-245 | an insert succeeds exactly when its table exists, it supplies each foreign-key column, its key is new and every referenced parent row exists; it then adds exactly its key |
| Scripts.StoreStep | db_cli.php:50-56 | through the store driver, a statement succeeds exactly when the engine applies it; a refusal reports the engine's error text and keeps the store |
| Scripts.DropOrderChildrenFirst | db_cli.php:61-68 | the drop list names every table, and lists each table before every table it references |
| Scripts.DropsSucceed | db_cli.php:69-76 | a list of drops succeeds on every statement from any state and removes exactly the tables it names |
| Scripts.DropScriptEmptiesStore | db_cli.php:61-77 | from any state the drop script succeeds on every statement and leaves no table, and a second run also succeeds and ends in the same state |
| Scripts.CreateOrderRespectsForeignKeys | db_cli.php:84-151 | every statement is a create, each table is created once, and each comes after every table its FOREIGN KEY clauses reference |
| Scripts.CreatesSucceed | db_cli.php:154-156 | a list of creates whose tables are new and distinct, and whose parents exist or are created earlier, succeeds on every statement and adds exactly those empty tables |
| Scripts.CreateScriptOnEmptyStore | db_cli.php:84-157 | on an empty database all six creates succeed and produce the six empty tables with their declared references |
| Scripts.InsertsSucceed | db_cli.php:248-250 | rows of one table numbered from b, with their parent rows present, all succeed and add exactly the keys b to b + count − 1 |
| Scripts.SeedScriptOnCreated | db_cli.php:164-250 | after the create script, every statement of the seed script succeeds, and the database ends in the seeded state |
| Scripts.SeededRowCounts | db_cli.php:164-245 | in the seeded state the tables hold 6, 10, 5, 5, 5 and 5 rows, keyed 1 to n, and keep their references |
| Scripts.SeedIntegrity | db_cli.php:164-245 | the seed script only inserts; primary keys are unique within each table; every foreign-key value names a row inserted earlier in the script |
| Scripts.InsertRunIntegrity | db_cli.php:248-250 | any list of inserts that succeeds in full on empty tables has unique keys per table and supplies every foreign-key column with a row inserted earlier |
| Scripts.SeedRunIntegrity | db_cli.php:248-250 | any insert list that succeeds in full on the freshly created schema is referentially sound in the same sense |
| Menu.ConnectToDatabase | db_cli.php:20-40 | a connection opens exactly when the credentials resolve and the driver accepts them; missing credentials report and exit 1 without a connect call; otherwise the driver is called with the resolved credentials, and a refusal ends with exit 1 |
| Menu.ChooseIsSwitch | db_cli.php:286-318 | reading the choice as a number once selects exactly the entry the switch's chain of loose `==` comparisons against "1" to "5" selects, and no entry when none matches |
| Menu.MenuDigits | db_cli.php:286-315 | the inputs "1" to "5" select drop, create, populate, query and exit |
| Menu.TypedDigits | db_cli.php:284-315 | the typed line "1" to "5" with its newline selects the same entries once trimmed |
| Menu.TrimmedChoice | db_cli.php:284-286 | blanks around a one-character choice do not change the entry it selects |
| Menu.ZeroPaddedChoice | db_cli.php:286-315 | any non-empty digit string selects the same entry with leading zeros added, as loose `==` compares numeric strings by value |
| Menu.NoDigitIsInvalid | db_cli.php:317-318 | an input with no digit selects no entry |
| Menu.NumberedScriptTurn | db_cli.php:287-303 | a choice line that reads as the number 1, 2 or 3, with a connection that opens, shows the menu, calls connect, opens the connection, runs the whole drop, create or seed script on the current database followed by its summary line, closes, and returns to the menu on the database that script left |
| Menu.ScriptTurnShape | db_cli.php:287-303 | with a connection, a script entry shows the menu, connects, runs the whole script followed by its summary line, closes and returns to the menu on the database the script left |
| Menu.QueryTurnShape | db_cli.php:305-311 | with a connection, entry 4 reads and trims the query before connecting, runs it, closes and returns to the menu |
| Menu.ExitEntryExits | db_cli.php:313-315 | entry 5 prints the farewell and ends the run with status 0, leaving the database alone |
| Menu.NoEntryLoops | db_cli.php:317-318 | any other input prints the invalid-choice line and returns to the menu without a connection |
| Menu.InvalidLinesNeverConnect | db_cli.php:317-318 | a run of inputs that select nothing gives one menu and one complaint per line, never connects, and waits for input with the database unchanged |
| Menu.RunEnds | db_cli.php:275-320 | every run starts at the menu; an exit event appears only as the last event; a run ends only with status 0 or 1 |
| Menu.RunSessions | db_cli.php:286-311 | every connection is opened right after a connect call, serves exactly one script or one query and is closed at once; a query's connection is made after the query is read |
| Menu.RunWithoutCredentials | db_cli.php:28-31 | with missing credentials no connection is ever attempted, the database is untouched, and an exit with status 1 is preceded by the missing-credentials message |
| Menu.MissingCredentialsExit | db_cli.php:286-318 | with missing credentials, the lines before the first script or query entry are each answered with the menu and the complaint; that entry shows the menu (and the query prompt), reports the missing credentials and exits with status 1, the database untouched |
| Menu.ScriptsThenExit | db_cli.php:286-315 | with a cooperating database, a run of script entries whose scripts all succeed, then entry 5, exits 0 with the database the last script left |
| Menu.SetUpSession | db_cli.php:286-315 | with a cooperating database, entries 1, 2, 3 and then 5 exit 0 from any starting state with the fully seeded schema, with every statement succeeding |
| Menu.ProgramExitStatus | db_cli.php:8-17 | the process exits 255 exactly when some `.env` line is refused by `putenv`, and then before any menu; otherwise it exits only with 0 or 1; an exit is always the last event |

## Left out

- The OCI driver functions (`oci_connect`, `oci_parse`, `oci_execute`, `oci_fetch_assoc`, `oci_error`, `oci_free_statement`, `oci_close`) are parameters of the model. The database engine is an oracle, and the store semantics is one instance of it; real SQL and PL/SQL are not modelled.
- The literal script statements always parse in the store driver, as parsing is client-side. An ad-hoc query's parse outcome is left to the oracle.
- The store gives only a representative Oracle error text per refusal kind. Only refusals that the create and insert statements can meet are modelled: a missing table, a name in use, missing columns, a duplicate key and a missing parent key. Other integrity errors are not.
- Columns other than integer keys are left out: names, addresses, `NUMBER(10,2)` amounts and `TO_DATE` dates. An insert carries only its primary key and its foreign-key values.
- File and terminal I/O are not modelled. `is_file`/`file` become an optional list of lines with empty lines already removed, `fgets` becomes the list of input lines, and `putenv`/`getenv` become a map.
- End of input: under `strict_types`, `trim(false)` throws a `TypeError`. The model instead ends the run awaiting input when the lines run out.
- The menu text, prompts and `print_r` layout are events, not strings. Standard output and standard error are not told apart beyond naming the stream in the event's description.
- `error_reporting` and `ini_set` are not modelled (db_cli.php:3-5).
- PhpCompare.LooseEquals: numeric strings compare as exact decimals. PHP's rounding of long mantissas to a double, and the overflow of huge integers, are not modelled.
