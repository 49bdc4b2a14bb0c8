/** The interactive loop: a menu read line by line from standard input,
    each choice opening a fresh connection, running one script or one query
    and closing it again. The loop is a fold over the input lines that
    produces a trace of what the program says and does. */
module Menu {
  import opened Basics
  import opened PhpStrings
  import opened PhpCompare
  import opened EnvLoader
  import opened Credentials
  import opened Executor
  import opened Schema
  import opened Scripts

  /** The three scripts behind menu entries 1, 2 and 3. */
  datatype ScriptKind = DropAll | CreateAll | PopulateAll

  function Script(k: ScriptKind): seq<Stmt> {
    match k
    case DropAll => DropScript
    case CreateAll => CreateScript
    case PopulateAll => SeedScript
  }

  /** The line each script prints after its last statement. */
  function Summary(k: ScriptKind): string {
    match k
    case DropAll => DroppedLine
    case CreateAll => CreatedLine
    case PopulateAll => PopulatedLine
  }

  /** The branch of the `switch` a trimmed input line selects. */
  datatype Choice = ScriptEntry(kind: ScriptKind) | QueryEntry | ExitEntry | NoEntry

  /** `switch ($choice)` as written: the case labels '1' to '5' are tried
      in order with PHP's loose `==`, so any numeric string of the same
      value selects a case. */
  function Switch(choice: string): Choice {
    if LooseEquals(choice, "1") then ScriptEntry(DropAll)
    else if LooseEquals(choice, "2") then ScriptEntry(CreateAll)
    else if LooseEquals(choice, "3") then ScriptEntry(PopulateAll)
    else if LooseEquals(choice, "4") then QueryEntry
    else if LooseEquals(choice, "5") then ExitEntry
    else NoEntry
  }

  /** The same selection with the choice read as a number once: a numeric
      choice selects the label of the same value, any other choice none
      (`ChooseIsSwitch`). */
  function Choose(choice: string): Choice {
    match ParseNumber(choice)
    case None => NoEntry
    case Some(a) => CaseOf(a)
  }

  /** The entry whose case label has the value of `a`. */
  function CaseOf(a: Number): Choice {
    if SameValue(a, Number(false, 1, 0)) then ScriptEntry(DropAll)
    else if SameValue(a, Number(false, 2, 0)) then ScriptEntry(CreateAll)
    else if SameValue(a, Number(false, 3, 0)) then ScriptEntry(PopulateAll)
    else if SameValue(a, Number(false, 4, 0)) then QueryEntry
    else if SameValue(a, Number(false, 5, 0)) then ExitEntry
    else NoEntry
  }

  /** What the program prints or does, in order. */
  datatype Event =
    | Prompt                                 // the menu and "Enter your choice: "
    | AskQuery                               // "Enter your SQL query: "
    | CredsMissing                           // "Missing DB_USER/DB_PASS in .env" on standard error
    | Connecting(config: Config)             // oci_connect is called
    | ConnectFailed(text: string)            // the failure line, on standard output
    | Opened                                 // the connection is established
    | Ran(kind: ScriptKind, outcomes: seq<Outcome>, effects: seq<Effect>)
    | Queried(query: string, outcome: Outcome, effects: seq<Effect>)
    | Closed                                 // oci_close
    | Invalid                                // "Invalid choice. Try again."
    | Farewell                               // "Exiting..."
    | EnvRejected(line: nat)                 // putenv threw on this `.env` line
    | Exit(code: int)

  /** What the program cannot see: whether `oci_connect` succeeds on its
      `n`-th call with these credentials, what the database does with the
      statements of the scripts (`StoreDriver()` is one such database), and
      what it does with a query typed at the prompt. */
  datatype World = World(
    connect: (Config, nat) -> Reply,
    engine: Driver<Store, Stmt>,
    adhoc: Driver<Store, string>)

  datatype Status = AwaitingInput | Exited(code: int)

  /** The events, whether the process has ended, and the database afterwards. */
  datatype Trace = Trace(events: seq<Event>, status: Status, store: Store)

  /** The events of one `connectToDatabase` call, and whether it returned a
      connection; when it did not, the process has exited with status 1. */
  datatype Attempt = Attempt(events: seq<Event>, ok: bool)

  /** The line printed when `oci_connect` fails: the driver's message, or
      nothing after the colon when it gives none. */
  function ConnectFailureLine(m: Option<string>): string {
    "Connection failed: " + m.GetOr("")
  }

  /** `connectToDatabase()` as the `n`-th connection of the run. */
  function ConnectToDatabase(env: Env, w: World, n: nat): (a: Attempt)
    ensures a.ok <==> Resolve(env).Resolved? && w.connect(Resolve(env).config, n).Ok?
    ensures Resolve(env).MissingCreds? ==> a.events == [CredsMissing, Exit(1)]
    ensures Resolve(env).Resolved? ==> |a.events| >= 2 && a.events[0] == Connecting(Resolve(env).config)
    ensures a.ok ==> a.events[1] == Opened && |a.events| == 2
    ensures !a.ok ==> |a.events| >= 2 && a.events[|a.events| - 1] == Exit(1)
  {
    match Resolve(env)
    case MissingCreds => Attempt([CredsMissing, Exit(1)], false)
    case Resolved(c) =>
      match w.connect(c, n)
      case Ok => Attempt([Connecting(c), Opened], true)
      case Err(m) => Attempt([Connecting(c), ConnectFailed(ConnectFailureLine(m)), Exit(1)], false)
  }

  /** Where one turn of the loop leaves the program: ended (by `exit`, or
      waiting at a prompt for input that is not there), or back at the menu
      with the remaining input and the number of connections made so far. */
  datatype Next =
    | Stop(status: Status, store: Store)
    | Continue(store: Store, n: nat, input: seq<string>)

  /** One turn of the loop: what it prints and does, and where it leaves the program. */
  datatype Turn = Turn(events: seq<Event>, next: Next)

  /** One pass of `while (true)` after `n` connections, reading its line
      (and, for a query, the next one) from `input`. */
  function Step(env: Env, w: World, db: Store, n: nat, input: seq<string>): (t: Turn)
    ensures t.next.Continue? ==> |t.next.input| < |input|
  {
    if input == [] then Turn([Prompt], Stop(AwaitingInput, db))
    else Dispatch(env, w, db, n, Choose(Trim(input[0])), input[1..])
  }

  /** The `switch` body for the selected entry; `more` is the input after
      the choice line. */
  function Dispatch(env: Env, w: World, db: Store, n: nat, c: Choice, more: seq<string>): (t: Turn)
    ensures t.next.Continue? ==> |t.next.input| <= |more|
  {
    match c
    case ExitEntry => Turn([Prompt, Farewell, Exit(0)], Stop(Exited(0), db))
    case NoEntry => Turn([Prompt, Invalid], Continue(db, n, more))
    case ScriptEntry(k) => ScriptTurn(env, w, db, n, k, Script(k), more)
    case QueryEntry =>
      if more == [] then Turn([Prompt, AskQuery], Stop(AwaitingInput, db))
      else
        var q := Trim(more[0]);
        var a := ConnectToDatabase(env, w, n);
        if !a.ok then Turn([Prompt, AskQuery] + a.events, Stop(Exited(1), db))
        else
          var x := QueryData(w.adhoc, db, q);
          Turn([Prompt, AskQuery] + a.events + [Queried(q, x.outcome, x.effects), Closed],
            Continue(x.state, n + 1, more[1..]))
  }

  /** Entries 1 to 3: connect, run the list `stmts` of script `k`, close. */
  function ScriptTurn(env: Env, w: World, db: Store, n: nat, k: ScriptKind, stmts: seq<Stmt>, more: seq<string>): (t: Turn)
    ensures t.next.Continue? ==> |t.next.input| <= |more|
  {
    var a := ConnectToDatabase(env, w, n);
    if !a.ok then Turn([Prompt] + a.events, Stop(Exited(1), db))
    else
      var b := RunScript(w.engine, db, stmts, Summary(k));
      Turn([Prompt] + a.events + [Ran(k, b.outcomes, b.effects), Closed], Continue(b.state, n + 1, more))
  }

  /** The loop from the `n`-th connection on, turn after turn, until it
      stops. */
  function Run(env: Env, w: World, db: Store, n: nat, input: seq<string>): (t: Trace)
    decreases |input|
  {
    var turn := Step(env, w, db, n, input);
    match turn.next
    case Stop(status, s) => Trace(turn.events, status, s)
    case Continue(s, m, rest) =>
      var r := Run(env, w, s, m, rest);
      Trace(turn.events + r.events, r.status, r.store)
  }

  /** The whole program: the `.env` file (None when there is none) applied
      to the inherited environment, then the loop. */
  function Program(inherited: Env, dotenv: Option<seq<string>>, w: World, db: Store, input: seq<string>): (t: Trace)
  {
    match dotenv
    case None => Run(inherited, w, db, 0, input)
    case Some(lines) =>
      match Load(inherited, lines)
      case Rejected(i) => Trace([EnvRejected(i), Exit(255)], Exited(255), db)
      case Loaded(env) => Run(env, w, db, 0, input)
  }

  // ---------------------------------------------------------------------
  // The choice

  /** A one-digit string reads as the digit's value. */
  lemma DigitIsNumber(d: char)
    requires IsDigit(d)
    ensures ParseNumber([d]) == Some(Number(false, d as int - '0' as int, 0))
  {
    DigitStringIsNumber([d]);
    assert [d][1..] == [];
  }

  /** The case labels are numeric strings of their own value. */
  lemma LabelsAreNumbers()
    ensures ParseNumber("1") == Some(Number(false, 1, 0))
    ensures ParseNumber("2") == Some(Number(false, 2, 0))
    ensures ParseNumber("3") == Some(Number(false, 3, 0))
    ensures ParseNumber("4") == Some(Number(false, 4, 0))
    ensures ParseNumber("5") == Some(Number(false, 5, 0))
  {
    DigitIsNumber('1');
    DigitIsNumber('2');
    DigitIsNumber('3');
    DigitIsNumber('4');
    DigitIsNumber('5');
  }

  /** Comparing with a numeric label is comparing values: a choice that
      is not numeric differs from the label as text too. */
  lemma LooseLabel(choice: string, name: string, k: nat)
    requires ParseNumber(name) == Some(Number(false, k, 0))
    ensures LooseEquals(choice, name) <==>
      ParseNumber(choice).Some? && SameValue(ParseNumber(choice).value, Number(false, k, 0))
  {
    if ParseNumber(choice).None? && choice == name {
      assert false;
    }
  }

  /** Reading the choice as a number once selects exactly the case the
      switch's loose comparisons select. */
  lemma ChooseIsSwitch(choice: string)
    ensures Choose(choice) == Switch(choice)
  {
    LabelsAreNumbers();
    LooseLabel(choice, "1", 1);
    LooseLabel(choice, "2", 2);
    LooseLabel(choice, "3", 3);
    LooseLabel(choice, "4", 4);
    LooseLabel(choice, "5", 5);
  }

  /** The entries of the five case values. */
  lemma CaseOfLabels()
    ensures CaseOf(Number(false, 1, 0)) == ScriptEntry(DropAll)
    ensures CaseOf(Number(false, 2, 0)) == ScriptEntry(CreateAll)
    ensures CaseOf(Number(false, 3, 0)) == ScriptEntry(PopulateAll)
    ensures CaseOf(Number(false, 4, 0)) == QueryEntry
    ensures CaseOf(Number(false, 5, 0)) == ExitEntry
  {
  }

  /** Each menu digit selects its own entry. */
  lemma MenuDigits()
    ensures Choose("1") == ScriptEntry(DropAll)
    ensures Choose("2") == ScriptEntry(CreateAll)
    ensures Choose("3") == ScriptEntry(PopulateAll)
    ensures Choose("4") == QueryEntry
    ensures Choose("5") == ExitEntry
  {
    LabelsAreNumbers();
    CaseOfLabels();
  }

  /** Leading zeros select the same entry: "003" populates the tables. */
  lemma ZeroPaddedChoice(z: nat, ds: string)
    requires ds != [] && AllDigits(ds)
    ensures Choose(Zeros(z) + ds) == Choose(ds)
  {
    LeadingZerosValue(z, ds);
    DigitStringIsNumber(Zeros(z) + ds);
    DigitStringIsNumber(ds);
  }

  /** A line holding no digit never selects an entry. */
  lemma NoDigitIsInvalid(choice: string)
    requires NoDigits(choice)
    ensures Choose(choice) == NoEntry
  {
    NoDigitsNotNumeric(choice);
  }

  /** The line is trimmed before the switch: blanks and a line break around
      the digit do not matter. */
  lemma TrimmedChoice(pre: string, d: char, post: string)
    requires AllBlank(pre) && AllBlank(post) && !IsBlank(d)
    ensures Choose(Trim(pre + [d] + post)) == Choose([d])
  {
    TrimIgnoresPadding(pre, [d], post);
  }

  // ---------------------------------------------------------------------
  // One turn

  /** Entries 1 to 3 with a connection: one connection, opened, used for
      the script on the current database, closed, and back to the menu. */
  lemma ScriptTurnShape(env: Env, w: World, db: Store, n: nat, k: ScriptKind, stmts: seq<Stmt>, more: seq<string>)
    requires ConnectToDatabase(env, w, n).ok
    ensures var t := ScriptTurn(env, w, db, n, k, stmts, more);
      var b := RunAll(w.engine, db, stmts);
      && t.events == [Prompt, Connecting(Resolve(env).config), Opened, Ran(k, b.outcomes, b.effects + [Say(Summary(k))]), Closed]
      && t.next == Continue(b.state, n + 1, more)
  {
    var a := ConnectToDatabase(env, w, n);
    var b := RunScript(w.engine, db, stmts, Summary(k));
    assert ScriptTurn(env, w, db, n, k, stmts, more)
      == Turn([Prompt] + a.events + [Ran(k, b.outcomes, b.effects), Closed], Continue(b.state, n + 1, more));
    assert a.events == [Connecting(Resolve(env).config), Opened];
  }

  /** Entry 4 with a query line and a connection: the query is read first,
      then one connection is opened, used for it and closed. */
  lemma QueryTurnShape(env: Env, w: World, db: Store, n: nat, more: seq<string>)
    requires more != [] && ConnectToDatabase(env, w, n).ok
    ensures var t := Dispatch(env, w, db, n, QueryEntry, more);
      var x := QueryData(w.adhoc, db, Trim(more[0]));
      && t.events == [Prompt, AskQuery, Connecting(Resolve(env).config), Opened, Queried(Trim(more[0]), x.outcome, x.effects), Closed]
      && t.next == Continue(x.state, n + 1, more[1..])
  {
    var a := ConnectToDatabase(env, w, n);
    var q := Trim(more[0]);
    var x := QueryData(w.adhoc, db, q);
    assert Dispatch(env, w, db, n, QueryEntry, more)
      == Turn([Prompt, AskQuery] + a.events + [Queried(q, x.outcome, x.effects), Closed], Continue(x.state, n + 1, more[1..]));
    assert a.events == [Connecting(Resolve(env).config), Opened];
    QuerySessionEvents(Resolve(env).config, Queried(q, x.outcome, x.effects));
  }

  lemma QuerySessionEvents(c: Config, e: Event)
    ensures [Prompt, AskQuery] + [Connecting(c), Opened] + [e, Closed] == [Prompt, AskQuery, Connecting(c), Opened, e, Closed]
  {
  }

  // ---------------------------------------------------------------------
  // Shape of a run

  /** True when the process has ended exactly at the last event, and no
      event before it ends the process. */
  predicate EndsAtLast(events: seq<Event>, status: Status) {
    && (forall i :: 0 <= i < |events| - 1 ==> !events[i].Exit?)
    && (status.Exited? <==> |events| > 0 && events[|events| - 1].Exit?)
    && (status.Exited? ==> events[|events| - 1] == Exit(status.code))
  }

  /** A turn shows the menu first; a turn that loops does not exit; a turn
      that stops by exiting does so with status 0 (entry 5) or 1 (no
      connection), on its last event. */
  predicate TurnEnds(t: Turn) {
    && |t.events| > 0 && t.events[0] == Prompt
    && (t.next.Continue? ==> forall i :: 0 <= i < |t.events| ==> !t.events[i].Exit?)
    && (t.next.Stop? ==> EndsAtLast(t.events, t.next.status))
    && (t.next.Stop? && t.next.status.Exited? ==> t.next.status.code == 0 || t.next.status.code == 1)
  }

  lemma StepEnds(env: Env, w: World, db: Store, n: nat, input: seq<string>)
    ensures TurnEnds(Step(env, w, db, n, input))
  {
    if input != [] {
      DispatchEnds(env, w, db, n, Choose(Trim(input[0])), input[1..]);
    }
  }

  lemma DispatchEnds(env: Env, w: World, db: Store, n: nat, c: Choice, more: seq<string>)
    ensures TurnEnds(Dispatch(env, w, db, n, c, more))
  {
    match c
    case ExitEntry =>
    case NoEntry =>
    case ScriptEntry(k) => ScriptTurnEnds(env, w, db, n, k, Script(k), more);
    case QueryEntry => QueryTurnEnds(env, w, db, n, more);
  }

  lemma ScriptTurnEnds(env: Env, w: World, db: Store, n: nat, k: ScriptKind, stmts: seq<Stmt>, more: seq<string>)
    ensures TurnEnds(ScriptTurn(env, w, db, n, k, stmts, more))
  {
    var t := ScriptTurn(env, w, db, n, k, stmts, more);
    if ConnectToDatabase(env, w, n).ok {
      ScriptTurnShape(env, w, db, n, k, stmts, more);
      var b := RunAll(w.engine, db, stmts);
      ScriptSessionEnds(Resolve(env).config, Ran(k, b.outcomes, b.effects + [Say(Summary(k))]), t.next);
    } else {
      ScriptTurnFails(env, w, db, n, k, stmts, more);
      FailedTurnEnds(env, w, n, [Prompt], db);
    }
  }

  lemma QueryTurnEnds(env: Env, w: World, db: Store, n: nat, more: seq<string>)
    ensures TurnEnds(Dispatch(env, w, db, n, QueryEntry, more))
  {
    var t := Dispatch(env, w, db, n, QueryEntry, more);
    if more == [] {
      assert t == Turn([Prompt, AskQuery], Stop(AwaitingInput, db));
    } else if ConnectToDatabase(env, w, n).ok {
      QueryTurnShape(env, w, db, n, more);
      var x := QueryData(w.adhoc, db, Trim(more[0]));
      QuerySessionEnds(Resolve(env).config, Queried(Trim(more[0]), x.outcome, x.effects), t.next);
    } else {
      QueryTurnFails(env, w, db, n, more);
      FailedTurnEnds(env, w, n, [Prompt, AskQuery], db);
    }
  }

  /** Turns that used their connection and came back to the menu. */
  lemma ScriptSessionEnds(c: Config, run: Event, next: Next)
    requires run.Ran? && next.Continue?
    ensures TurnEnds(Turn([Prompt, Connecting(c), Opened, run, Closed], next))
  {
  }

  lemma QuerySessionEnds(c: Config, query: Event, next: Next)
    requires query.Queried? && next.Continue?
    ensures TurnEnds(Turn([Prompt, AskQuery, Connecting(c), Opened, query, Closed], next))
  {
  }

  /** A turn whose connection fails ends with the attempt's events. */
  lemma ScriptTurnFails(env: Env, w: World, db: Store, n: nat, k: ScriptKind, stmts: seq<Stmt>, more: seq<string>)
    requires !ConnectToDatabase(env, w, n).ok
    ensures ScriptTurn(env, w, db, n, k, stmts, more) ==
      Turn([Prompt] + ConnectToDatabase(env, w, n).events, Stop(Exited(1), db))
  {
  }

  lemma QueryTurnFails(env: Env, w: World, db: Store, n: nat, more: seq<string>)
    requires more != [] && !ConnectToDatabase(env, w, n).ok
    ensures Dispatch(env, w, db, n, QueryEntry, more) ==
      Turn([Prompt, AskQuery] + ConnectToDatabase(env, w, n).events, Stop(Exited(1), db))
  {
  }

  lemma FailedTurnEnds(env: Env, w: World, n: nat, head: seq<Event>, db: Store)
    requires !ConnectToDatabase(env, w, n).ok
    requires head == [Prompt] || head == [Prompt, AskQuery]
    ensures TurnEnds(Turn(head + ConnectToDatabase(env, w, n).events, Stop(Exited(1), db)))
  {
    var es := ConnectToDatabase(env, w, n).events;
    FailedAttemptEnds(env, w, n);
    EndsAfterPrefix(head, es, Exited(1));
  }

  /** A connection attempt that fails has exited with status 1 on its last event. */
  lemma FailedAttemptEnds(env: Env, w: World, n: nat)
    requires !ConnectToDatabase(env, w, n).ok
    ensures var es := ConnectToDatabase(env, w, n).events;
      EndsAtLast(es, Exited(1)) && es[0] != Prompt && es[0] != AskQuery
  {
  }

  lemma EndsAfterPrefix(head: seq<Event>, events: seq<Event>, status: Status)
    requires forall i :: 0 <= i < |head| ==> !head[i].Exit?
    requires |events| > 0 && EndsAtLast(events, status)
    ensures EndsAtLast(head + events, status)
  {
    var all := head + events;
    forall i | 0 <= i < |all| - 1 ensures !all[i].Exit? {
      if i >= |head| {
        assert all[i] == events[i - |head|];
      }
    }
  }

  /** The loop ends only by entry 5 (status 0) or by a failed connection
      (status 1), always on its last event; the menu is shown first. */
  lemma {:induction false} RunEnds(env: Env, w: World, db: Store, n: nat, input: seq<string>)
    ensures var t := Run(env, w, db, n, input);
      && |t.events| > 0 && t.events[0] == Prompt
      && EndsAtLast(t.events, t.status)
      && (t.status.Exited? ==> t.status.code == 0 || t.status.code == 1)
    decreases |input|
  {
    StepEnds(env, w, db, n, input);
    var turn := Step(env, w, db, n, input);
    match turn.next
    case Stop(_, _) =>
    case Continue(s, m, rest) =>
      RunEnds(env, w, s, m, rest);
      var r := Run(env, w, s, m, rest);
      EndsAfterPrefix(turn.events, r.events, r.status);
  }

  // ---------------------------------------------------------------------
  // Connections

  /** Read left to right, the events open a connection only right after
      `oci_connect` is called, use it for exactly one script or one query
      and close it straight away; a query's connection is made only after
      the query was asked for. No script result, query result or close
      appears outside such a block. */
  predicate Sessions(es: seq<Event>)
    decreases |es|
  {
    if es == [] then true
    else match es[0]
      case Connecting(_) =>
        if |es| > 1 && es[1] == Opened then
          |es| >= 4 && es[2].Ran? && es[3] == Closed && Sessions(es[4..])
        else Sessions(es[1..])
      case AskQuery =>
        if |es| > 2 && es[1].Connecting? && es[2] == Opened then
          |es| >= 5 && es[3].Queried? && es[4] == Closed && Sessions(es[5..])
        else Sessions(es[1..])
      case Opened => false
      case Closed => false
      case Ran(_, _, _) => false
      case Queried(_, _, _) => false
      case _ => Sessions(es[1..])
  }

  /** True for an event that only a connection block may hold. */
  predicate InSession(e: Event) {
    e == Opened || e == Closed || e.Ran? || e.Queried?
  }

  /** Two runs of blocks make one when the second starts at the menu. */
  lemma {:induction false} SessionsAppend(a: seq<Event>, b: seq<Event>)
    requires Sessions(a) && Sessions(b)
    requires b == [] || b[0] == Prompt
    ensures Sessions(a + b)
    decreases |a|
  {
    if a != [] {
      var es := a + b;
      var k := if a[0].Connecting? && |a| > 1 && a[1] == Opened then 4
        else if a[0] == AskQuery && |a| > 2 && a[1].Connecting? && a[2] == Opened then 5
        else 1;
      assert es[0] == a[0];
      assert |a| > 1 ==> es[1] == a[1];
      assert |a| > 2 ==> es[2] == a[2];
      assert |a| == 1 && b != [] ==> es[1] == Prompt;
      assert |a| == 2 && b != [] ==> es[2] == Prompt;
      assert es[k..] == a[k..] + b;
      SessionsAppend(a[k..], b);
    } else {
      assert a + b == b;
    }
  }

  /** Events with no connection in them are trivially well bracketed. */
  lemma {:induction false} NoSessionEvents(es: seq<Event>)
    requires forall i :: 0 <= i < |es| ==> !InSession(es[i])
    ensures Sessions(es)
    decreases |es|
  {
    if es != [] {
      NoSessionEvents(es[1..]);
    }
  }

  /** The one shape of a script turn that connects. */
  lemma ScriptSession(c: Config, run: Event)
    requires run.Ran?
    ensures Sessions([Prompt, Connecting(c), Opened, run, Closed])
  {
    var es := [Prompt, Connecting(c), Opened, run, Closed];
    assert es[1..][4..] == [];
  }

  /** The one shape of a query turn that connects. */
  lemma QuerySession(c: Config, query: Event)
    requires query.Queried?
    ensures Sessions([Prompt, AskQuery, Connecting(c), Opened, query, Closed])
  {
    var es := [Prompt, AskQuery, Connecting(c), Opened, query, Closed];
    assert es[1..][5..] == [];
  }

  lemma FailedAttemptSessions(env: Env, w: World, n: nat, head: seq<Event>)
    requires !ConnectToDatabase(env, w, n).ok
    requires head == [Prompt] || head == [Prompt, AskQuery]
    ensures Sessions(head + ConnectToDatabase(env, w, n).events)
  {
    var es := head + ConnectToDatabase(env, w, n).events;
    assert forall i :: 0 <= i < |es| ==> !InSession(es[i]);
    NoSessionEvents(es);
  }

  lemma ScriptTurnSessions(env: Env, w: World, db: Store, n: nat, k: ScriptKind, stmts: seq<Stmt>, more: seq<string>)
    ensures Sessions(ScriptTurn(env, w, db, n, k, stmts, more).events)
  {
    var a := ConnectToDatabase(env, w, n);
    if a.ok {
      var b := RunScript(w.engine, db, stmts, Summary(k));
      ScriptTurnShape(env, w, db, n, k, stmts, more);
      ScriptSession(Resolve(env).config, Ran(k, b.outcomes, b.effects));
    } else {
      FailedAttemptSessions(env, w, n, [Prompt]);
    }
  }

  lemma QueryTurnSessions(env: Env, w: World, db: Store, n: nat, more: seq<string>)
    ensures Sessions(Dispatch(env, w, db, n, QueryEntry, more).events)
  {
    if more != [] {
      var a := ConnectToDatabase(env, w, n);
      if a.ok {
        var q := Trim(more[0]);
        var x := QueryData(w.adhoc, db, q);
        QueryTurnShape(env, w, db, n, more);
        QuerySession(Resolve(env).config, Queried(q, x.outcome, x.effects));
      } else {
        FailedAttemptSessions(env, w, n, [Prompt, AskQuery]);
      }
    }
  }

  lemma StepSessions(env: Env, w: World, db: Store, n: nat, input: seq<string>)
    ensures Sessions(Step(env, w, db, n, input).events)
  {
    if input != [] {
      DispatchSessions(env, w, db, n, Choose(Trim(input[0])), input[1..]);
    }
  }

  lemma DispatchSessions(env: Env, w: World, db: Store, n: nat, c: Choice, more: seq<string>)
    ensures Sessions(Dispatch(env, w, db, n, c, more).events)
  {
    match c
    case ExitEntry =>
      NoSessionEvents([Prompt, Farewell, Exit(0)]);
    case NoEntry =>
      NoSessionEvents([Prompt, Invalid]);
    case ScriptEntry(k) => ScriptTurnSessions(env, w, db, n, k, Script(k), more);
    case QueryEntry => QueryTurnSessions(env, w, db, n, more);
  }

  /** Over a whole run, every connection is opened, used once and closed
      before the menu comes back, and a query is read before connecting. */
  lemma {:induction false} RunSessions(env: Env, w: World, db: Store, n: nat, input: seq<string>)
    ensures Sessions(Run(env, w, db, n, input).events)
    decreases |input|
  {
    StepSessions(env, w, db, n, input);
    var turn := Step(env, w, db, n, input);
    match turn.next
    case Stop(_, _) =>
    case Continue(s, m, rest) =>
      RunSessions(env, w, s, m, rest);
      RunEnds(env, w, s, m, rest);
      SessionsAppend(turn.events, Run(env, w, s, m, rest).events);
  }

  // ---------------------------------------------------------------------
  // Missing credentials

  /** No event asks the driver for a connection. */
  predicate NeverConnects(es: seq<Event>) {
    forall i :: 0 <= i < |es| ==> !es[i].Connecting? && es[i] != Opened
  }

  lemma StepWithoutCredentials(env: Env, w: World, db: Store, n: nat, input: seq<string>)
    requires Resolve(env).MissingCreds?
    ensures var t := Step(env, w, db, n, input);
      && NeverConnects(t.events)
      && t.next.store == db
      && (t.next.Continue? ==> t.next.n == n)
      && (t.next == Stop(Exited(1), db) ==> CredsMissing in t.events)
  {
    if input != [] {
      DispatchWithoutCredentials(env, w, db, n, Choose(Trim(input[0])), input[1..]);
    }
  }

  lemma DispatchWithoutCredentials(env: Env, w: World, db: Store, n: nat, c: Choice, more: seq<string>)
    requires Resolve(env).MissingCreds?
    ensures var t := Dispatch(env, w, db, n, c, more);
      && NeverConnects(t.events)
      && t.next.store == db
      && (t.next.Continue? ==> t.next.n == n)
      && (t.next == Stop(Exited(1), db) ==> CredsMissing in t.events)
  {
    match c
    case ExitEntry =>
    case NoEntry =>
    case ScriptEntry(k) =>
      assert ScriptTurn(env, w, db, n, k, Script(k), more).events == [Prompt, CredsMissing, Exit(1)];
    case QueryEntry =>
      if more != [] {
        assert Dispatch(env, w, db, n, c, more).events == [Prompt, AskQuery, CredsMissing, Exit(1)];
      }
  }

  /** Without a user name or password the driver is never called and the
      database is untouched, and an exit with status 1 comes after saying
      what is missing (`MissingCredentialsExit` says when it comes). */
  lemma {:induction false} RunWithoutCredentials(env: Env, w: World, db: Store, n: nat, input: seq<string>)
    requires Resolve(env).MissingCreds?
    ensures var t := Run(env, w, db, n, input);
      && NeverConnects(t.events)
      && t.store == db
      && (t.status == Exited(1) ==> CredsMissing in t.events)
    decreases |input|
  {
    StepWithoutCredentials(env, w, db, n, input);
    var turn := Step(env, w, db, n, input);
    match turn.next
    case Stop(_, _) =>
    case Continue(s, m, rest) =>
      RunWithoutCredentials(env, w, s, m, rest);
      var r := Run(env, w, s, m, rest);
      var all := turn.events + r.events;
      forall i | 0 <= i < |all| ensures !all[i].Connecting? && all[i] != Opened {
        if i >= |turn.events| {
          assert all[i] == r.events[i - |turn.events|];
        }
      }
  }

  /** What a turn shows before it connects: the menu, and for a query the
      query prompt too. */
  function AskedBefore(c: Choice): seq<Event> {
    if c == QueryEntry then [Prompt, AskQuery] else [Prompt]
  }

  /** The first line selects an entry that connects: a script, or a query
      with its query line present. */
  predicate ConnectsFirst(input: seq<string>) {
    && input != []
    && (Choose(Trim(input[0])).ScriptEntry? || (Choose(Trim(input[0])) == QueryEntry && |input| >= 2))
  }

  /** Without a user name or password, the lines before the first entry
      that needs a connection are complaints; that entry says what is
      missing and ends the process with status 1, the database untouched. */
  lemma {:induction false} MissingCredentialsExit(env: Env, w: World, db: Store, n: nat, input: seq<string>, j: nat)
    requires Resolve(env).MissingCreds?
    requires j < |input|
    requires forall i :: 0 <= i < j ==> Choose(Trim(input[i])) == NoEntry
    requires ConnectsFirst(input[j..])
    ensures Run(env, w, db, n, input) ==
      Trace(Complaints(j) + (AskedBefore(Choose(Trim(input[j]))) + [CredsMissing, Exit(1)]), Exited(1), db)
    decreases j
  {
    if j == 0 {
      assert input[0..] == input;
      MissingCredentialsTurn(env, w, db, n, input);
      assert Complaints(0) == [];
    } else {
      var rest := input[1..];
      DropFirstLine(input, j);
      MissingCredentialsExit(env, w, db, n, rest, j - 1);
      InvalidLineThen(env, w, db, n, input);
      ComplaintsThen(j - 1, AskedBefore(Choose(Trim(input[j]))) + [CredsMissing, Exit(1)]);
    }
  }

  /** The facts about `input` from line 1 on that the step from `j` to
      `j - 1` needs. */
  lemma DropFirstLine(input: seq<string>, j: nat)
    requires 0 < j < |input|
    requires forall i :: 0 <= i < j ==> Choose(Trim(input[i])) == NoEntry
    requires ConnectsFirst(input[j..])
    ensures Choose(Trim(input[0])) == NoEntry
    ensures forall i :: 0 <= i < j - 1 ==> Choose(Trim(input[1..][i])) == NoEntry
    ensures input[1..][j - 1] == input[j]
    ensures ConnectsFirst(input[1..][j - 1..])
  {
    assert input[1..][j - 1..] == input[j..];
    forall i | 0 <= i < j - 1 ensures Choose(Trim(input[1..][i])) == NoEntry {
      assert input[1..][i] == input[i + 1];
    }
  }

  lemma ComplaintsThen(k: nat, tail: seq<Event>)
    ensures Complaints(k + 1) + tail == [Prompt, Invalid] + (Complaints(k) + tail)
  {
  }

  /** The first entry needing a connection, without credentials. */
  lemma MissingCredentialsTurn(env: Env, w: World, db: Store, n: nat, input: seq<string>)
    requires Resolve(env).MissingCreds?
    requires ConnectsFirst(input)
    ensures Run(env, w, db, n, input) ==
      Trace(AskedBefore(Choose(Trim(input[0]))) + [CredsMissing, Exit(1)], Exited(1), db)
  {
    match Choose(Trim(input[0]))
    case ScriptEntry(k) =>
      ScriptTurnFails(env, w, db, n, k, Script(k), input[1..]);
    case QueryEntry =>
      QueryTurnFails(env, w, db, n, input[1..]);
  }

  /** A line selecting nothing puts the complaint in front of the rest of the run. */
  lemma InvalidLineThen(env: Env, w: World, db: Store, n: nat, input: seq<string>)
    requires input != [] && Choose(Trim(input[0])) == NoEntry
    ensures var r := Run(env, w, db, n, input[1..]);
      Run(env, w, db, n, input) == Trace([Prompt, Invalid] + r.events, r.status, r.store)
  {
    NoEntryLoops(env, w, db, n, input);
  }

  // ---------------------------------------------------------------------
  // Invalid input

  /** The menu and the complaint, `k` times. */
  function Complaints(k: nat): (r: seq<Event>)
    ensures |r| == 2 * k
    ensures forall i :: 0 <= i < k ==> r[2 * i] == Prompt && r[2 * i + 1] == Invalid
  {
    if k == 0 then []
    else
      var rest := Complaints(k - 1);
      assert forall i :: 1 <= i < k ==> ([Prompt, Invalid] + rest)[2 * i] == rest[2 * (i - 1)];
      [Prompt, Invalid] + rest
  }

  /** Lines that select no entry are each answered with the complaint and
      the menu again; nothing connects, the database is untouched, and the
      program is left waiting at the prompt. */
  lemma {:induction false} InvalidLinesNeverConnect(env: Env, w: World, db: Store, n: nat, input: seq<string>)
    requires forall i :: 0 <= i < |input| ==> Choose(Trim(input[i])) == NoEntry
    ensures Run(env, w, db, n, input) == Trace(Complaints(|input|) + [Prompt], AwaitingInput, db)
    decreases |input|
  {
    if input != [] {
      NoEntryLoops(env, w, db, n, input);
      InvalidLinesNeverConnect(env, w, db, n, input[1..]);
      ComplaintsCons(|input| - 1);
    }
  }

  lemma ComplaintsCons(k: nat)
    ensures Complaints(k + 1) + [Prompt] == [Prompt, Invalid] + (Complaints(k) + [Prompt])
  {
  }

  // ---------------------------------------------------------------------
  // Exit status of the process

  /** The process ends with status 255 exactly when the `.env` file holds an
      assignment `putenv` refuses, and then before any menu is shown;
      otherwise it ends only by entry 5 (status 0) or a failed connection
      (status 1), each on its last event. */
  lemma ProgramExitStatus(inherited: Env, dotenv: Option<seq<string>>, w: World, db: Store, input: seq<string>)
    ensures var t := Program(inherited, dotenv, w, db, input);
      && (t.status == Exited(255) <==>
          dotenv.Some? && exists i :: 0 <= i < |dotenv.value| && PutenvRefuses(dotenv.value[i]))
      && (t.status == Exited(255) ==> Prompt !in t.events)
      && (t.status.Exited? ==> t.status.code in {0, 1, 255})
      && EndsAtLast(t.events, t.status)
  {
    var t := Program(inherited, dotenv, w, db, input);
    match dotenv
    case None =>
      ProgramWithoutFile(inherited, w, db, input);
      LoopEnds(t);
    case Some(lines) =>
      LoadRejectsFirstRefused(inherited, lines);
      if Load(inherited, lines).Loaded? {
        ProgramLoaded(inherited, lines, w, db, input);
        LoopEnds(t);
      } else {
        var i := Load(inherited, lines).line;
        ProgramRejected(inherited, lines, w, db, input);
        RejectionEnds(i, db);
        assert PutenvRefuses(lines[i]);
      }
  }

  /** What the process promises about its end, given whether the `.env`
      file holds a refused line. */
  predicate ProgramEnds(t: Trace, refuses: bool) {
    && (t.status == Exited(255) <==> refuses)
    && (t.status == Exited(255) ==> Prompt !in t.events)
    && (t.status.Exited? ==> t.status.code in {0, 1, 255})
    && EndsAtLast(t.events, t.status)
  }

  lemma LoopEnds(t: Trace)
    requires LoopStatus(t)
    ensures ProgramEnds(t, false)
  {
  }

  lemma RejectionEnds(i: nat, db: Store)
    ensures ProgramEnds(Trace([EnvRejected(i), Exit(255)], Exited(255), db), true)
  {
  }

  /** The loop ends only with status 0 or 1, on its last event. */
  predicate LoopStatus(t: Trace) {
    && (t.status.Exited? ==> t.status.code == 0 || t.status.code == 1)
    && EndsAtLast(t.events, t.status)
  }

  lemma ProgramWithoutFile(inherited: Env, w: World, db: Store, input: seq<string>)
    ensures LoopStatus(Program(inherited, None, w, db, input))
  {
    RunEnds(inherited, w, db, 0, input);
  }

  lemma ProgramLoaded(inherited: Env, lines: seq<string>, w: World, db: Store, input: seq<string>)
    requires Load(inherited, lines).Loaded?
    ensures LoopStatus(Program(inherited, Some(lines), w, db, input))
  {
    RunEnds(Load(inherited, lines).env, w, db, 0, input);
  }

  /** A refused `.env` line ends the process with status 255 before the menu. */
  lemma ProgramRejected(inherited: Env, lines: seq<string>, w: World, db: Store, input: seq<string>)
    requires Load(inherited, lines).Rejected?
    ensures Program(inherited, Some(lines), w, db, input) ==
      Trace([EnvRejected(Load(inherited, lines).line), Exit(255)], Exited(255), db)
  {
  }

  // ---------------------------------------------------------------------
  // Menu entries

  /** Entry 5 says goodbye and ends the process with status 0, whatever
      input follows. */
  lemma ExitEntryExits(env: Env, w: World, db: Store, n: nat, input: seq<string>)
    requires input != [] && Choose(Trim(input[0])) == ExitEntry
    ensures Step(env, w, db, n, input) == Turn([Prompt, Farewell, Exit(0)], Stop(Exited(0), db))
    ensures Run(env, w, db, n, input) == Trace([Prompt, Farewell, Exit(0)], Exited(0), db)
  {
  }

  /** A line that selects no entry is answered with the complaint, and the
      loop goes on with the same database and no new connection. */
  lemma NoEntryLoops(env: Env, w: World, db: Store, n: nat, input: seq<string>)
    requires input != [] && Choose(Trim(input[0])) == NoEntry
    ensures Step(env, w, db, n, input) == Turn([Prompt, Invalid], Continue(db, n, input[1..]))
  {
  }

  /** Every script run the events report succeeded on every statement. */
  predicate ScriptsSucceeded(es: seq<Event>) {
    forall i :: 0 <= i < |es| && es[i].Ran? ==> AllSucceeded(es[i].outcomes)
  }

  /** With the store as the database and a connection that opens, a
      script whose statements all succeed leaves their end state and
      reports only successes. */
  lemma ScriptTurnOnStore(env: Env, w: World, db: Store, n: nat, k: ScriptKind, stmts: seq<Stmt>, more: seq<string>, after: Store)
    requires w.engine == StoreDriver() && ConnectToDatabase(env, w, n).ok
    requires var r := RunAll(StoreDriver(), db, stmts); AllSucceeded(r.outcomes) && r.state == after
    ensures var t := ScriptTurn(env, w, db, n, k, stmts, more);
      && t.next == Continue(after, n + 1, more)
      && ScriptsSucceeded(t.events)
  {
    var b := RunAll(StoreDriver(), db, stmts);
    ScriptTurnShape(env, w, db, n, k, stmts, more);
    SessionSucceeded(Resolve(env).config, k, b.outcomes, b.effects + [Say(Summary(k))]);
  }

  /** A script session reports success when its one script run does. */
  lemma SessionSucceeded(c: Config, k: ScriptKind, outcomes: seq<Outcome>, effects: seq<Effect>)
    requires AllSucceeded(outcomes)
    ensures ScriptsSucceeded([Prompt, Connecting(c), Opened, Ran(k, outcomes, effects), Closed])
  {
    var es := [Prompt, Connecting(c), Opened, Ran(k, outcomes, effects), Closed];
    assert forall i :: 0 <= i < |es| && es[i].Ran? ==> i == 3;
  }

  /** A line selecting script entry `k` runs that script's statements
      (the step from the chosen entry to its turn). */
  lemma StepToScript(env: Env, w: World, db: Store, n: nat, input: seq<string>, k: ScriptKind)
    requires input != [] && Choose(Trim(input[0])) == ScriptEntry(k)
    ensures Step(env, w, db, n, input) == ScriptTurn(env, w, db, n, k, Script(k), input[1..])
  {
  }
  /** A line that reads as the number 1, 2 or 3, with a connection that
      opens: the menu, the connect call, the opened connection, the whole
      drop, create or seed script on the current database followed by its
      summary line, the close, and back to the menu on the database the
      script left. */
  lemma NumberedScriptTurn(env: Env, w: World, db: Store, n: nat, input: seq<string>, v: nat)
    requires input != [] && ParseNumber(Trim(input[0])) == Some(Number(false, v, 0))
    requires 1 <= v <= 3
    requires ConnectToDatabase(env, w, n).ok
    ensures var k := if v == 1 then DropAll else if v == 2 then CreateAll else PopulateAll;
      var stmts := if v == 1 then DropScript else if v == 2 then CreateScript else SeedScript;
      var b := RunAll(w.engine, db, stmts);
      var t := Step(env, w, db, n, input);
      && t.events == [Prompt, Connecting(Resolve(env).config), Opened, Ran(k, b.outcomes, b.effects + [Say(Summary(k))]), Closed]
      && t.next == Continue(b.state, n + 1, input[1..])
  {
    NumberSelectsScript(Trim(input[0]), v);
    ScriptChoiceTurn(env, w, db, n, input, if v == 1 then DropAll else if v == 2 then CreateAll else PopulateAll);
    NumberedScript(v);
  }

  /** A line selecting script entry `k`, with a connection that opens. */
  lemma ScriptChoiceTurn(env: Env, w: World, db: Store, n: nat, input: seq<string>, k: ScriptKind)
    requires input != [] && Choose(Trim(input[0])) == ScriptEntry(k)
    requires ConnectToDatabase(env, w, n).ok
    ensures var b := RunAll(w.engine, db, Script(k));
      var t := Step(env, w, db, n, input);
      && t.events == [Prompt, Connecting(Resolve(env).config), Opened, Ran(k, b.outcomes, b.effects + [Say(Summary(k))]), Closed]
      && t.next == Continue(b.state, n + 1, input[1..])
  {
    StepToScript(env, w, db, n, input, k);
    ScriptTurnShape(env, w, db, n, k, Script(k), input[1..]);
  }

  lemma NumberedScript(v: nat)
    ensures Script(if v == 1 then DropAll else if v == 2 then CreateAll else PopulateAll)
      == if v == 1 then DropScript else if v == 2 then CreateScript else SeedScript
  {
  }

  lemma NumberSelectsScript(choice: string, v: nat)
    requires ParseNumber(choice) == Some(Number(false, v, 0))
    requires 1 <= v <= 3
    ensures Choose(choice) == ScriptEntry(if v == 1 then DropAll else if v == 2 then CreateAll else PopulateAll)
  {
  }


  /** A turn that runs its scripts successfully and moves on leaves the
      outcome of the run to the turns after it. */
  lemma SucceedingTurn(env: Env, w: World, db: Store, n: nat, input: seq<string>, after: Store)
    requires input != []
    requires Step(env, w, db, n, input).next == Continue(after, n + 1, input[1..])
    requires ScriptsSucceeded(Step(env, w, db, n, input).events)
    requires ScriptsSucceeded(Run(env, w, after, n + 1, input[1..]).events)
    ensures var t := Run(env, w, db, n, input);
      var r := Run(env, w, after, n + 1, input[1..]);
      t.status == r.status && t.store == r.store && ScriptsSucceeded(t.events)
  {
    var turn := Step(env, w, db, n, input);
    var r := Run(env, w, after, n + 1, input[1..]);
    assert Run(env, w, db, n, input).events == turn.events + r.events;
    var es := turn.events + r.events;
    forall i | |turn.events| <= i < |es| ensures es[i] == r.events[i - |turn.events|] {}
  }

  /** A menu digit typed with its line break selects the digit's entry. */
  lemma DigitLine(d: char)
    requires '1' <= d <= '5'
    ensures Trim([d, '\n']) == [d]
  {
    TrimIgnoresPadding([], [d], "\n");
    assert [] + [d] + "\n" == [d, '\n'];
  }

  /** The lines `fgets` returns for the menu digits select their entries. */
  lemma TypedDigits()
    ensures Choose(Trim("1\n")) == ScriptEntry(DropAll)
    ensures Choose(Trim("2\n")) == ScriptEntry(CreateAll)
    ensures Choose(Trim("3\n")) == ScriptEntry(PopulateAll)
    ensures Choose(Trim("4\n")) == QueryEntry
    ensures Choose(Trim("5\n")) == ExitEntry
  {
    DigitLine('1');
    DigitLine('2');
    DigitLine('3');
    DigitLine('4');
    DigitLine('5');
    MenuDigits();
  }

  /** Connections always open, and the database is the store. */
  ghost predicate Cooperative(env: Env, w: World) {
    && w.engine == StoreDriver()
    && Resolve(env).Resolved?
    && forall m: nat :: w.connect(Resolve(env).config, m).Ok?
  }

  /** A line selecting script `k`, whose statements all succeed on the
      database, leaves the outcome of the run to the lines after it. */
  lemma ScriptLineThen(env: Env, w: World, db: Store, n: nat, input: seq<string>, k: ScriptKind, stmts: seq<Stmt>, after: Store)
    requires Cooperative(env, w)
    requires input != [] && Choose(Trim(input[0])) == ScriptEntry(k) && Script(k) == stmts
    requires var r := RunAll(StoreDriver(), db, stmts); AllSucceeded(r.outcomes) && r.state == after
    requires ScriptsSucceeded(Run(env, w, after, n + 1, input[1..]).events)
    ensures var t := Run(env, w, db, n, input);
      var r := Run(env, w, after, n + 1, input[1..]);
      t.status == r.status && t.store == r.store && ScriptsSucceeded(t.events)
  {
    StepToScript(env, w, db, n, input, k);
    ScriptTurnOnStore(env, w, db, n, k, stmts, input[1..], after);
    SucceedingTurn(env, w, db, n, input, after);
  }

  /** Running the scripts `ks` one after another from `db` succeeds on
      every statement and ends with `last`. */
  predicate Stages(db: Store, ks: seq<ScriptKind>, last: Store)
    decreases |ks|
  {
    if ks == [] then db == last
    else
      var r := RunAll(StoreDriver(), db, Script(ks[0]));
      AllSucceeded(r.outcomes) && Stages(r.state, ks[1..], last)
  }

  /** The exit turn runs no script, so it reports no failed one. */
  lemma Farewells()
    ensures ScriptsSucceeded([Prompt, Farewell, Exit(0)])
  {
  }

  /** The lines select the scripts `ks` in order, then entry 5. */
  predicate Selects(input: seq<string>, ks: seq<ScriptKind>)
    decreases |ks|
  {
    && |input| == |ks| + 1
    && if ks == [] then Choose(Trim(input[0])) == ExitEntry
       else Choose(Trim(input[0])) == ScriptEntry(ks[0]) && Selects(input[1..], ks[1..])
  }

  /** Lines selecting scripts that all succeed, then a line selecting entry
      5: the run ends with status 0 on the database the last script left. */
  lemma {:induction false} ScriptsThenExit(env: Env, w: World, db: Store, n: nat, input: seq<string>, ks: seq<ScriptKind>, last: Store)
    requires Cooperative(env, w)
    requires Selects(input, ks)
    requires Stages(db, ks, last)
    ensures var t := Run(env, w, db, n, input);
      t.status == Exited(0) && t.store == last && ScriptsSucceeded(t.events)
    decreases |ks|
  {
    if ks == [] {
      ExitEntryExits(env, w, db, n, input);
      Farewells();
    } else {
      var r := RunAll(StoreDriver(), db, Script(ks[0]));
      ScriptsThenExit(env, w, r.state, n + 1, input[1..], ks[1..], last);
      ScriptLineThen(env, w, db, n, input, ks[0], Script(ks[0]), r.state);
    }
  }

  /** The set-up session: lines selecting entries 1, 2, 3 and 5 (such as
      the lines `TypedDigits` reads), with connections that open and the
      store as the database. Whatever the database held, every statement of
      the three scripts succeeds, the database ends with the six tables and
      their seed rows, and the process exits with status 0. */
  lemma SetUpSession(env: Env, w: World, db: Store, input: seq<string>)
    requires Cooperative(env, w)
    requires Selects(input, [DropAll, CreateAll, PopulateAll])
    ensures var t := Run(env, w, db, 0, input);
      && t.status == Exited(0)
      && t.store == Seeded
      && ScriptsSucceeded(t.events)
  {
    SetUpStages(db);
    ScriptsThenExit(env, w, db, 0, input, [DropAll, CreateAll, PopulateAll], Seeded);
  }

  lemma PopulateStage()
    ensures Stages(Created, [PopulateAll], Seeded)
  {
    SeedScriptOnCreated();
    assert Script(PopulateAll) == SeedScript;
    assert [PopulateAll][1..] == [];
  }

  lemma CreateStage()
    ensures Stages(map[], [CreateAll, PopulateAll], Seeded)
  {
    CreateScriptOnEmptyStore(map[]);
    assert Script(CreateAll) == CreateScript;
    PopulateStage();
    assert [CreateAll, PopulateAll][1..] == [PopulateAll];
  }

  /** From any database, drop, create and populate each succeed throughout
      and end with the seeded tables. */
  lemma SetUpStages(db: Store)
    ensures Stages(db, [DropAll, CreateAll, PopulateAll], Seeded)
  {
    DropScriptEmptiesStore(db);
    assert Script(DropAll) == DropScript;
    CreateStage();
    assert [DropAll, CreateAll, PopulateAll][1..] == [CreateAll, PopulateAll];
  }
}
