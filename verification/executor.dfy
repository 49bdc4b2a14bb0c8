/** `executeQuery` and `queryData`: the two-phase (parse, then execute)
    statement runners, written over an abstract driver so that every
    failure the driver can report is covered, and the "log and continue"
    loop the three scripts use. */
module Executor {
  import opened Basics

  /** A fetched row: column names with their values rendered as text, in column order. */
  type Row = seq<(string, string)>

  /** What the driver answers for one phase: success, or failure with the
      message `oci_error` gives (None when it gives none). */
  datatype Reply = Ok | Err(message: Option<string>)

  /** The abstract driver over a database state `S` and statement text `Q`:
      `oci_parse`, `oci_execute` (which may change the state) and the rows
      `oci_fetch_assoc` hands out one by one after an execute. */
  datatype Driver<!S, !Q> = Driver(
    parse: (S, Q) -> Reply,
    execute: (S, Q) -> (Reply, S),
    fetch: (S, Q) -> seq<Row>)

  /** Per-statement result; the messages already carry the "unknown" default. */
  datatype Outcome = Success | ParseFailed(message: string) | ExecFailed(message: string)

  /** What one statement run does, in order: driver calls and printed lines. */
  datatype Effect =
    | Parse              // oci_parse
    | Execute            // oci_execute
    | Say(text: string)  // one line echoed to standard output
    | ShowRow(row: Row)  // print_r of one fetched row
    | Free               // oci_free_statement

  /** The state after a statement, its outcome and its effects. */
  datatype Executed<S> = Executed(state: S, outcome: Outcome, effects: seq<Effect>)

  /** The state after a list of statements, one outcome per statement, and all effects. */
  datatype Batch<S> = Batch(state: S, outcomes: seq<Outcome>, effects: seq<Effect>)

  /** `$e['message'] ?? 'unknown'`. */
  function Message(m: Option<string>): string {
    m.GetOr("unknown")
  }

  /** The line printed for a failure. */
  function FailureLine(o: Outcome): string
    requires !o.Success?
  {
    match o
    case ParseFailed(m) => "Parse error: " + m
    case ExecFailed(m) => "Error executing query: " + m
  }

  const ExecutedLine := "Query executed successfully."

  /** Number of times `e` occurs in `es`. */
  function Occurrences(es: seq<Effect>, e: Effect): nat {
    multiset(es)[e]
  }

  /** True when no effect in `es` prints a row. */
  predicate NoRows(es: seq<Effect>) {
    forall i :: 0 <= i < |es| ==> !es[i].ShowRow?
  }

  /** True when the effects of one statement run follow the statement
      lifecycle: parsed once, first; a statement that failed to parse is
      neither executed nor freed; one that parsed is executed once and freed
      exactly once, last; and the outcome's line is printed. */
  predicate Lifecycle(parsed: bool, o: Outcome, es: seq<Effect>) {
    && |es| > 0 && es[0] == Parse && Occurrences(es, Parse) == 1
    && (!parsed ==> Occurrences(es, Execute) == 0 && Occurrences(es, Free) == 0)
    && (parsed ==> Occurrences(es, Execute) == 1 && Occurrences(es, Free) == 1 && es[|es| - 1] == Free)
    && (!o.Success? ==> Say(FailureLine(o)) in es)
  }

  /** `executeQuery($conn, $query)`: on a parse failure the state is left
      alone; otherwise the outcome is the execute phase's, and so is the
      state. Messages default to "unknown". */
  function ExecuteQuery<S, Q>(d: Driver<S, Q>, s: S, q: Q): (r: Executed<S>)
    ensures d.parse(s, q).Err? ==>
      r.outcome == ParseFailed(Message(d.parse(s, q).message)) && r.state == s
    ensures d.parse(s, q).Ok? ==>
      && r.state == d.execute(s, q).1
      && (r.outcome.Success? <==> d.execute(s, q).0.Ok?)
      && (d.execute(s, q).0.Err? ==> r.outcome == ExecFailed(Message(d.execute(s, q).0.message)))
  {
    match d.parse(s, q)
    case Err(pm) =>
      var o := ParseFailed(Message(pm));
      Executed(s, o, [Parse, Say(FailureLine(o))])
    case Ok =>
      var (reply, s') := d.execute(s, q);
      match reply
      case Err(em) =>
        var o := ExecFailed(Message(em));
        Executed(s', o, [Parse, Execute, Say(FailureLine(o)), Free])
      case Ok =>
        Executed(s', Success, [Parse, Execute, Say(ExecutedLine), Free])
  }

  /** `executeQuery` prints its fixed confirmation on success, no rows
      ever, and follows the statement lifecycle: nothing is executed or
      freed after a parse failure, and a parsed statement is freed exactly
      once whether or not its execution succeeded. */
  lemma ExecuteQueryLifecycle<S, Q>(d: Driver<S, Q>, s: S, q: Q)
    ensures var r := ExecuteQuery(d, s, q);
      && Lifecycle(d.parse(s, q).Ok?, r.outcome, r.effects)
      && (r.outcome.Success? ==> Say(ExecutedLine) in r.effects)
      && NoRows(r.effects)
  {
    var r := ExecuteQuery(d, s, q);
    if d.parse(s, q).Err? {
      assert r.effects == [Parse, Say(FailureLine(r.outcome))];
      UnparsedLifecycle(r.outcome);
    } else {
      ExecutedLifecycle(r.outcome, r.effects);
    }
  }

  /** The effects of a statement that parsed and ran, as `executeQuery` prints them. */
  lemma ExecutedLifecycle(o: Outcome, es: seq<Effect>)
    requires es == [Parse, Execute, Say(if o.Success? then ExecutedLine else FailureLine(o)), Free]
    ensures Lifecycle(true, o, es) && (o.Success? ==> Say(ExecutedLine) in es) && NoRows(es)
  {
    var line := Say(if o.Success? then ExecutedLine else FailureLine(o));
    ParsedLifecycle(o, [line], es);
    assert NoRows([line]);
    assert es[2] == line;
  }

  /** The effects of a statement that failed to parse. */
  lemma UnparsedLifecycle(o: Outcome)
    requires !o.Success?
    ensures Lifecycle(false, o, [Parse, Say(FailureLine(o))])
    ensures NoRows([Parse, Say(FailureLine(o))])
  {
    var es := [Parse, Say(FailureLine(o))];
    assert multiset(es) == multiset{Parse, Say(FailureLine(o))};
    assert es[1] == Say(FailureLine(o));
  }

  /** The effects of a statement that parsed: whatever is printed between
      the execute and the free. */
  lemma ParsedLifecycle(o: Outcome, middle: seq<Effect>, es: seq<Effect>)
    requires forall i :: 0 <= i < |middle| ==> middle[i].Say? || middle[i].ShowRow?
    requires !o.Success? ==> Say(FailureLine(o)) in middle
    requires es == [Parse, Execute] + middle + [Free]
    ensures Lifecycle(true, o, es)
    ensures NoRows(middle) ==> NoRows(es)
  {
    assert multiset(es) == multiset([Parse, Execute]) + multiset(middle) + multiset([Free]);
    assert Parse !in middle && Execute !in middle && Free !in middle;
    assert es[|es| - 1] == Free;
    if !o.Success? {
      var i :| 0 <= i < |middle| && middle[i] == Say(FailureLine(o));
      assert es[i + 2] == middle[i];
    }
    if NoRows(middle) {
      forall i | 0 <= i < |es|
        ensures !es[i].ShowRow?
      {
        if 2 <= i < |es| - 1 {
          assert es[i] == middle[i - 2];
        }
      }
    }
  }

  /** One `ShowRow` per row, in order. */
  function ShowRows(rows: seq<Row>): (r: seq<Effect>)
    ensures |r| == |rows|
    ensures forall i :: 0 <= i < |rows| ==> r[i] == ShowRow(rows[i])
  {
    if rows == [] then [] else [ShowRow(rows[0])] + ShowRows(rows[1..])
  }

  /** `queryData($conn, $query)`: the same two phases as `executeQuery`;
      on success the rows fetched from the state the execute left are
      shown. */
  function QueryData<S, Q>(d: Driver<S, Q>, s: S, q: Q): (r: Executed<S>)
    ensures d.parse(s, q).Err? ==>
      r.outcome == ParseFailed(Message(d.parse(s, q).message)) && r.state == s
    ensures d.parse(s, q).Ok? ==>
      && r.state == d.execute(s, q).1
      && (r.outcome.Success? <==> d.execute(s, q).0.Ok?)
      && (d.execute(s, q).0.Err? ==> r.outcome == ExecFailed(Message(d.execute(s, q).0.message)))
  {
    match d.parse(s, q)
    case Err(pm) =>
      var o := ParseFailed(Message(pm));
      Executed(s, o, [Parse, Say(FailureLine(o))])
    case Ok =>
      var (reply, s') := d.execute(s, q);
      match reply
      case Err(em) =>
        var o := ExecFailed(Message(em));
        Executed(s', o, [Parse, Execute, Say(FailureLine(o)), Free])
      case Ok =>
        Executed(s', Success, [Parse, Execute] + ShowRows(d.fetch(s', q)) + [Free])
  }

  /** `queryData` follows the statement lifecycle; a failed parse or execute
      fetches nothing; a successful one shows every fetched row, in order,
      between the execute and the free, and prints nothing else. */
  lemma QueryDataLifecycle<S, Q>(d: Driver<S, Q>, s: S, q: Q)
    ensures var r := QueryData(d, s, q);
      && Lifecycle(d.parse(s, q).Ok?, r.outcome, r.effects)
      && (!r.outcome.Success? ==> NoRows(r.effects))
      && (r.outcome.Success? ==>
        var rows := d.fetch(r.state, q);
        && |r.effects| == |rows| + 3
        && r.effects[1] == Execute
        && forall i :: 0 <= i < |rows| ==> r.effects[i + 2] == ShowRow(rows[i]))
  {
    var r := QueryData(d, s, q);
    if d.parse(s, q).Err? {
      assert r.effects == [Parse, Say(FailureLine(r.outcome))];
      UnparsedLifecycle(r.outcome);
    } else if r.outcome.Success? {
      ShownLifecycle(r.outcome, d.fetch(r.state, q), r.effects);
    } else {
      ExecutedLifecycle(r.outcome, r.effects);
    }
  }

  /** The effects of a successful `queryData`: the fetched rows, between the
      execute and the free. */
  lemma ShownLifecycle(o: Outcome, rows: seq<Row>, es: seq<Effect>)
    requires o.Success?
    requires es == [Parse, Execute] + ShowRows(rows) + [Free]
    ensures Lifecycle(true, o, es)
    ensures |es| == |rows| + 3 && es[1] == Execute
    ensures forall i :: 0 <= i < |rows| ==> es[i + 2] == ShowRow(rows[i])
  {
    ParsedLifecycle(o, ShowRows(rows), es);
    ShownInOrder(rows, es);
  }

  lemma ShownInOrder(rows: seq<Row>, es: seq<Effect>)
    requires es == [Parse, Execute] + ShowRows(rows) + [Free]
    ensures |es| == |rows| + 3 && es[1] == Execute
    ensures forall i :: 0 <= i < |rows| ==> es[i + 2] == ShowRow(rows[i])
  {
    assert es[2..|es| - 1] == ShowRows(rows);
  }

  /** Number of outcomes that are parse failures. */
  function ParseFailures(os: seq<Outcome>): nat {
    if os == [] then 0 else (if os[0].ParseFailed? then 1 else 0) + ParseFailures(os[1..])
  }

  /** The `foreach` over a statement list: every statement is run through
      `executeQuery` in order on the state the previous one left, whatever
      the earlier outcomes were. */
  function RunAll<S, Q>(d: Driver<S, Q>, s: S, qs: seq<Q>): (r: Batch<S>)
    ensures |r.outcomes| == |qs|
    decreases |qs|
  {
    if qs == [] then Batch(s, [], [])
    else
      var x := ExecuteQuery(d, s, qs[0]);
      var rest := RunAll(d, x.state, qs[1..]);
      Batch(rest.state, [x.outcome] + rest.outcomes, x.effects + rest.effects)
  }

  /** A whole script: the statements, then the summary line, printed
      unconditionally. */
  function RunScript<S, Q>(d: Driver<S, Q>, s: S, qs: seq<Q>, summary: string): Batch<S> {
    var b := RunAll(d, s, qs);
    Batch(b.state, b.outcomes, b.effects + [Say(summary)])
  }

  /** Every statement of a script is attempted, and the summary line comes
      last whatever their outcomes. */
  lemma RunScriptSummary<S, Q>(d: Driver<S, Q>, s: S, qs: seq<Q>, summary: string)
    ensures var r := RunScript(d, s, qs, summary);
      && |r.outcomes| == |qs|
      && Occurrences(r.effects, Parse) == |qs|
      && |r.effects| > 0 && r.effects[|r.effects| - 1] == Say(summary)
  {
    var b := RunAll(d, s, qs);
    RunAllCounts(d, s, qs);
    assert multiset(b.effects + [Say(summary)]) == multiset(b.effects) + multiset([Say(summary)]);
  }

  /** Log and continue: every statement is parsed once, whatever the earlier
      outcomes; each one that parsed is freed exactly once; no row is printed. */
  lemma {:induction false} RunAllCounts<S, Q>(d: Driver<S, Q>, s: S, qs: seq<Q>)
    ensures var r := RunAll(d, s, qs);
      && Occurrences(r.effects, Parse) == |qs|
      && Occurrences(r.effects, Free) + ParseFailures(r.outcomes) == |qs|
      && NoRows(r.effects)
    decreases |qs|
  {
    if qs != [] {
      var x := ExecuteQuery(d, s, qs[0]);
      var rest := RunAll(d, x.state, qs[1..]);
      ExecuteQueryLifecycle(d, s, qs[0]);
      RunAllCounts(d, x.state, qs[1..]);
      var r := RunAll(d, s, qs);
      assert r.effects == x.effects + rest.effects;
      assert multiset(r.effects) == multiset(x.effects) + multiset(rest.effects);
      assert r.outcomes == [x.outcome] + rest.outcomes;
      assert ([x.outcome] + rest.outcomes)[1..] == rest.outcomes;
    }
  }

  /** Running a list in two parts is running it whole. */
  lemma {:induction false} RunAllAppend<S, Q>(d: Driver<S, Q>, s: S, a: seq<Q>, b: seq<Q>)
    ensures var ra := RunAll(d, s, a);
      var rb := RunAll(d, ra.state, b);
      RunAll(d, s, a + b) == Batch(rb.state, ra.outcomes + rb.outcomes, ra.effects + rb.effects)
    decreases |a|
  {
    if a == [] {
      assert a + b == b;
    } else {
      var x := ExecuteQuery(d, s, a[0]);
      assert (a + b)[0] == a[0];
      assert (a + b)[1..] == a[1..] + b;
      RunAllAppend(d, x.state, a[1..], b);
      var ra' := RunAll(d, x.state, a[1..]);
      var rb := RunAll(d, ra'.state, b);
      assert [x.outcome] + (ra'.outcomes + rb.outcomes) == ([x.outcome] + ra'.outcomes) + rb.outcomes;
      assert x.effects + (ra'.effects + rb.effects) == (x.effects + ra'.effects) + rb.effects;
    }
  }

  /** In order: the outcome of statement `i` is what `executeQuery` gives for
      it on the state the first `i` statements left. */
  lemma RunAllInOrder<S, Q>(d: Driver<S, Q>, s: S, qs: seq<Q>, i: nat)
    requires i < |qs|
    ensures RunAll(d, s, qs).outcomes[i] == ExecuteQuery(d, RunAll(d, s, qs[..i]).state, qs[i]).outcome
  {
    assert qs == qs[..i] + qs[i..];
    RunAllAppend(d, s, qs[..i], qs[i..]);
  }
}
