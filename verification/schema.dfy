/** The six tables of the car-rental schema, the three kinds of statement
    the scripts issue, and a small semantics for them over a store that
    records, per existing table, its foreign keys and the primary keys of
    its rows. Only integer keys are modelled. */
module Schema {
  import opened Basics
  import opened Executor

  /** The six tables, named in the SQL text BRANCH_INFORMATION,
      CAR_INFORMATION, CUSTOMER_INFORMATION, RENTAL_RECORDS,
      BILLING_INFORMATION and MAINTENANCE. */
  datatype Table = Branch | Car | Customer | Rental | Billing | Maintenance

  /** One statement of a script.
      - `DropCascade(t)`: the PL/SQL block running `DROP TABLE t CASCADE
        CONSTRAINTS` with every exception swallowed.
      - `CreateTable(t, parents)`: `CREATE TABLE t` whose FOREIGN KEY
        clauses reference `parents`, in clause order.
      - `Insert(t, pk, fks)`: a row of `t` with primary key `pk` and the
        values of its foreign-key columns, in clause order. */
  datatype Stmt =
    | DropCascade(table: Table)
    | CreateTable(table: Table, parents: seq<Table>)
    | Insert(table: Table, pk: int, fks: seq<int>)

  /** An existing table: for each foreign-key column, the table it still
      references (None once that table was dropped with its constraints),
      and the primary keys of its rows. */
  datatype TableState = TableState(refs: seq<Option<Table>>, keys: set<int>)

  type Store = map<Table, TableState>

  /** Why the engine refuses a statement. */
  datatype DbError =
    | NoSuchTable(table: Table)
    | NameInUse(table: Table)
    | ColumnCount(table: Table)
    | DuplicateKey(table: Table, pk: int)
    | ParentKeyMissing(parent: Table, value: int)

  /** The engine's message for a refusal. */
  function ErrorText(e: DbError): string {
    match e
    case NoSuchTable(_) => "ORA-00942: table or view does not exist"
    case NameInUse(_) => "ORA-00955: name is already used by an existing object"
    case ColumnCount(_) => "ORA-00947: not enough values"
    case DuplicateKey(_, _) => "ORA-00001: unique constraint violated"
    case ParentKeyMissing(_, _) => "ORA-02291: integrity constraint violated - parent key not found"
  }

  /** Every live reference points at an existing table. */
  ghost predicate WellFormed(s: Store) {
    forall t, i :: t in s && 0 <= i < |s[t].refs| && s[t].refs[i].Some? ==> s[t].refs[i].value in s
  }

  /** True when value `fks[i]` is a key of the table referenced by column `i`
      (a column whose constraint was dropped accepts any value). */
  predicate ParentsPresent(s: Store, refs: seq<Option<Table>>, fks: seq<int>)
    requires |fks| == |refs|
  {
    forall i :: 0 <= i < |refs| && refs[i].Some? ==> refs[i].value in s && fks[i] in s[refs[i].value].keys
  }

  /** Index of the first column whose parent row is missing. */
  function FirstMissing(s: Store, refs: seq<Option<Table>>, fks: seq<int>): (i: nat)
    requires |fks| == |refs|
    requires !ParentsPresent(s, refs, fks)
    ensures i < |refs| && refs[i].Some?
    ensures refs[i].value !in s || fks[i] !in s[refs[i].value].keys
  {
    if refs[0].Some? && (refs[0].value !in s || fks[0] !in s[refs[0].value].keys) then 0
    else
      assert !ParentsPresent(s, refs[1..], fks[1..]);
      1 + FirstMissing(s, refs[1..], fks[1..])
  }

  /** Index of the first referenced table that does not exist. */
  function FirstAbsent(s: Store, parents: seq<Table>): (i: nat)
    requires exists i :: 0 <= i < |parents| && parents[i] !in s
    ensures i < |parents| && parents[i] !in s
  {
    if parents[0] !in s then 0
    else
      var j :| 0 <= j < |parents| && parents[j] !in s;
      assert parents[1..][j - 1] !in s;
      1 + FirstAbsent(s, parents[1..])
  }

  /** The store after a statement, or the engine's refusal. */
  datatype Applied = Applied(store: Store) | Refused(error: DbError)

  /** References to `t` become dangling-free: `CASCADE CONSTRAINTS` drops
      every foreign-key constraint that points at the dropped table. */
  function Unreference(refs: seq<Option<Table>>, t: Table): (r: seq<Option<Table>>)
    ensures |r| == |refs|
    ensures forall i :: 0 <= i < |refs| ==> r[i] == (if refs[i] == Some(t) then None else refs[i])
  {
    if refs == [] then []
    else [if refs[0] == Some(t) then None else refs[0]] + Unreference(refs[1..], t)
  }

  function Somes(ts: seq<Table>): (r: seq<Option<Table>>)
    ensures |r| == |ts|
    ensures forall i :: 0 <= i < |ts| ==> r[i] == Some(ts[i])
  {
    if ts == [] then [] else [Some(ts[0])] + Somes(ts[1..])
  }

  /** What the engine does with one statement. */
  function Apply(s: Store, st: Stmt): (r: Applied)
  {
    match st
    case DropCascade(t) =>
      Applied(map u | u in s && u != t :: s[u].(refs := Unreference(s[u].refs, t)))
    case CreateTable(t, parents) =>
      if t in s then Refused(NameInUse(t))
      else if exists i :: 0 <= i < |parents| && parents[i] !in s then
        Refused(NoSuchTable(parents[FirstAbsent(s, parents)]))
      else Applied(s[t := TableState(Somes(parents), {})])
    case Insert(t, pk, fks) =>
      if t !in s then Refused(NoSuchTable(t))
      else if |fks| != |s[t].refs| then Refused(ColumnCount(t))
      else if pk in s[t].keys then Refused(DuplicateKey(t, pk))
      else if !ParentsPresent(s, s[t].refs, fks) then
        var i := FirstMissing(s, s[t].refs, fks);
        Refused(ParentKeyMissing(s[t].refs[i].value, fks[i]))
      else Applied(s[t := s[t].(keys := s[t].keys + {pk})])
  }

  /** The engine keeps every reference pointing at an existing table. */
  lemma ApplyPreservesWellFormed(s: Store, st: Stmt)
    requires WellFormed(s)
    ensures Apply(s, st).Applied? ==> WellFormed(Apply(s, st).store)
  {
  }

  /** A drop always succeeds, from any state, and removes exactly its table,
      leaving the rows of every other table alone. */
  lemma DropAlwaysSucceeds(s: Store, t: Table)
    ensures Apply(s, DropCascade(t)).Applied?
    ensures var s' := Apply(s, DropCascade(t)).store;
      && s'.Keys == s.Keys - {t}
      && forall u :: u in s' ==> s'[u].keys == s[u].keys && |s'[u].refs| == |s[u].refs|
  {
  }

  /** A create succeeds exactly when the table is new and every table it
      references exists; it then holds no rows. */
  lemma CreateSucceedsIff(s: Store, t: Table, parents: seq<Table>)
    ensures Apply(s, CreateTable(t, parents)).Applied? <==>
      t !in s && forall i :: 0 <= i < |parents| ==> parents[i] in s
    ensures Apply(s, CreateTable(t, parents)).Applied? ==>
      Apply(s, CreateTable(t, parents)).store == s[t := TableState(Somes(parents), {})]
  {
  }

  /** An insert succeeds exactly when its table exists, it supplies every
      foreign-key column, its key is new and every referenced parent row
      exists; it then adds exactly its key. */
  lemma InsertSucceedsIff(s: Store, t: Table, pk: int, fks: seq<int>)
    ensures Apply(s, Insert(t, pk, fks)).Applied? <==>
      && t in s
      && |fks| == |s[t].refs|
      && pk !in s[t].keys
      && ParentsPresent(s, s[t].refs, fks)
    ensures Apply(s, Insert(t, pk, fks)).Applied? ==>
      Apply(s, Insert(t, pk, fks)).store == s[t := s[t].(keys := s[t].keys + {pk})]
  {
  }

  /** The statements as the driver sees them: the literal script text always
      parses; executing it applies the statement, or reports the engine's
      error and leaves the store unchanged. Scripts never fetch rows. */
  function StoreDriver(): Driver<Store, Stmt> {
    Driver(
      (s: Store, st: Stmt) => Ok,
      (s: Store, st: Stmt) =>
        match Apply(s, st)
        case Applied(s') => (Ok, s')
        case Refused(e) => (Err(Some(ErrorText(e))), s),
      (s: Store, st: Stmt) => [])
  }
}
