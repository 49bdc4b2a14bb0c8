/** The three literal statement lists of `dropTables`, `createTables` and
    `populateTables`, and what running them on the store achieves. */
module Scripts {
  import opened Basics
  import opened Executor
  import opened Schema

  /** `dropTables`: children before parents. */
  const DropScript: seq<Stmt> := [
    DropCascade(Billing),
    DropCascade(Rental),
    DropCascade(Maintenance),
    DropCascade(Car),
    DropCascade(Customer),
    DropCascade(Branch)
  ]

  /** `createTables`: each table with the tables its FOREIGN KEY clauses
      reference, in clause order. */
  const CreateScript: seq<Stmt> := [
    CreateTable(Branch, []),
    CreateTable(Car, [Branch]),
    CreateTable(Customer, []),
    CreateTable(Rental, [Customer, Car, Branch, Branch]),
    CreateTable(Billing, [Customer, Rental]),
    CreateTable(Maintenance, [Car])
  ]

  /** Branch_ID. */
  const BranchRows: seq<Stmt> := [
    Insert(Branch, 1, []),
    Insert(Branch, 2, []),
    Insert(Branch, 3, []),
    Insert(Branch, 4, []),
    Insert(Branch, 5, []),
    Insert(Branch, 6, [])
  ]

  /** Car_ID; Branch_ID. */
  const CarRows: seq<Stmt> := [
    Insert(Car, 1, [1]),
    Insert(Car, 2, [1]),
    Insert(Car, 3, [2]),
    Insert(Car, 4, [3]),
    Insert(Car, 5, [1]),
    Insert(Car, 6, [2]),
    Insert(Car, 7, [3]),
    Insert(Car, 8, [4]),
    Insert(Car, 9, [5]),
    Insert(Car, 10, [6])
  ]

  /** Customer_ID. */
  const CustomerRows: seq<Stmt> := [
    Insert(Customer, 1, []),
    Insert(Customer, 2, []),
    Insert(Customer, 3, []),
    Insert(Customer, 4, []),
    Insert(Customer, 5, [])
  ]

  /** Rental_ID; Customer_ID, Car_ID, Pickup_Branch_ID, Dropoff_Branch_ID. */
  const RentalRows: seq<Stmt> := [
    Insert(Rental, 1, [1, 1, 1, 1]),
    Insert(Rental, 2, [2, 2, 2, 3]),
    Insert(Rental, 3, [3, 3, 3, 4]),
    Insert(Rental, 4, [4, 4, 4, 5]),
    Insert(Rental, 5, [5, 5, 5, 1])
  ]

  /** Payment_ID; Customer_ID, Rental_ID. */
  const BillingRows: seq<Stmt> := [
    Insert(Billing, 1, [1, 1]),
    Insert(Billing, 2, [2, 2]),
    Insert(Billing, 3, [3, 3]),
    Insert(Billing, 4, [4, 4]),
    Insert(Billing, 5, [5, 5])
  ]

  /** Maintenance_ID; Car_ID. */
  const MaintenanceRows: seq<Stmt> := [
    Insert(Maintenance, 1, [1]),
    Insert(Maintenance, 2, [2]),
    Insert(Maintenance, 3, [3]),
    Insert(Maintenance, 4, [4]),
    Insert(Maintenance, 5, [5])
  ]

  /** `populateTables`. */
  const SeedScript: seq<Stmt> :=
    BranchRows + CarRows + CustomerRows + RentalRows + BillingRows + MaintenanceRows

  const DroppedLine := "Tables dropped successfully (or they did not exist)."
  const CreatedLine := "Tables created successfully."
  const PopulatedLine := "Tables populated successfully."

  /** The store right after the create script: all six tables, no rows. */
  const Created: Store := map[
    Branch := TableState([], {}),
    Car := TableState([Some(Branch)], {}),
    Customer := TableState([], {}),
    Rental := TableState([Some(Customer), Some(Car), Some(Branch), Some(Branch)], {}),
    Billing := TableState([Some(Customer), Some(Rental)], {}),
    Maintenance := TableState([Some(Car)], {})
  ]

  /** How many rows the seed script puts into each table. */
  function RowCount(t: Table): nat {
    match t
    case Branch => 6
    case Car => 10
    case Customer => 5
    case Rental => 5
    case Billing => 5
    case Maintenance => 5
  }

  /** The integers `lo`, ..., `hi - 1`. */
  function Range(lo: int, hi: int): (r: set<int>)
    ensures forall k :: k in r <==> lo <= k < hi
    decreases hi - lo
  {
    if lo >= hi then {} else {lo} + Range(lo + 1, hi)
  }

  lemma {:induction false} RangeSize(lo: int, hi: int)
    requires lo <= hi
    ensures |Range(lo, hi)| == hi - lo
    decreases hi - lo
  {
    if lo < hi {
      RangeSize(lo + 1, hi);
      assert Range(lo, hi) == {lo} + Range(lo + 1, hi);
    } else {
      assert Range(lo, hi) == {};
    }
  }

  /** The tables a table's FOREIGN KEY clauses reference, as the create
      script declares them. */
  function DeclaredParents(t: Table): (r: seq<Table>)
  {
    match t
    case Branch => CreateScript[0].parents
    case Car => CreateScript[1].parents
    case Customer => CreateScript[2].parents
    case Rental => CreateScript[3].parents
    case Billing => CreateScript[4].parents
    case Maintenance => CreateScript[5].parents
  }

  /** Every outcome is a success. */
  predicate AllSucceeded(os: seq<Outcome>) {
    forall i :: 0 <= i < |os| ==> os[i] == Success
  }

  /** The primary keys the inserts into `t` in `stmts` add. */
  function InsertedKeys(stmts: seq<Stmt>, t: Table): (r: set<int>)
    ensures forall i :: 0 <= i < |stmts| && stmts[i].Insert? && stmts[i].table == t ==> stmts[i].pk in r
  {
    if stmts == [] then {}
    else (if stmts[0].Insert? && stmts[0].table == t then {stmts[0].pk} else {}) + InsertedKeys(stmts[1..], t)
  }

  lemma {:induction false} InsertedKeysAppend(a: seq<Stmt>, b: seq<Stmt>, t: Table)
    ensures InsertedKeys(a + b, t) == InsertedKeys(a, t) + InsertedKeys(b, t)
    decreases |a|
  {
    if a == [] {
      assert a + b == b;
    } else {
      assert (a + b)[1..] == a[1..] + b;
      InsertedKeysAppend(a[1..], b, t);
    }
  }

  // ---------------------------------------------------------------------
  // Order of the literal lists

  /** Each table is created after every table its foreign keys reference,
      and each is created exactly once; `DeclaredParents` reads the list. */
  lemma CreateOrderRespectsForeignKeys()
    ensures forall i :: 0 <= i < |CreateScript| ==> CreateScript[i].CreateTable?
    ensures forall i, k :: 0 <= i < |CreateScript| && 0 <= k < |CreateScript[i].parents| ==>
      exists j :: 0 <= j < i && CreateScript[j].table == CreateScript[i].parents[k]
    ensures forall i, j :: 0 <= i < j < |CreateScript| ==> CreateScript[i].table != CreateScript[j].table
    ensures forall i :: 0 <= i < |CreateScript| ==> DeclaredParents(CreateScript[i].table) == CreateScript[i].parents
  {
    assert CreateScript[0].table == Branch;
    assert CreateScript[1].table == Car;
    assert CreateScript[2].table == Customer;
    assert CreateScript[3].table == Rental;
  }

  /** The drop list names each table once and lists it before every table
      it references. */
  lemma DropOrderChildrenFirst()
    ensures forall i :: 0 <= i < |DropScript| ==> DropScript[i].DropCascade?
    ensures forall t: Table :: DropCascade(t) in DropScript
    ensures forall i, j :: 0 <= i < |DropScript| && 0 <= j < |DropScript| ==>
      (DropScript[j].table in DeclaredParents(DropScript[i].table) ==> i < j)
  {
    assert DropScript[0].table == Billing;
    assert DropScript[1].table == Rental;
    assert DropScript[2].table == Maintenance;
    assert DropScript[3].table == Car;
    assert DropScript[4].table == Customer;
    assert DropScript[5].table == Branch;
    forall t: Table ensures DropCascade(t) in DropScript {
      match t
      case Billing => assert DropScript[0] == DropCascade(t);
      case Rental => assert DropScript[1] == DropCascade(t);
      case Maintenance => assert DropScript[2] == DropCascade(t);
      case Car => assert DropScript[3] == DropCascade(t);
      case Customer => assert DropScript[4] == DropCascade(t);
      case Branch => assert DropScript[5] == DropCascade(t);
    }
  }

  // ---------------------------------------------------------------------
  // Running the scripts on the store

  /** Drops succeed from any state and remove exactly the tables they name. */
  lemma {:induction false} DropsSucceed(s: Store, stmts: seq<Stmt>)
    requires forall i :: 0 <= i < |stmts| ==> stmts[i].DropCascade?
    ensures var r := RunAll(StoreDriver(), s, stmts);
      && AllSucceeded(r.outcomes)
      && forall t :: t in r.state <==> t in s && DropCascade(t) !in stmts
    decreases |stmts|
  {
    if stmts != [] {
      var d := StoreDriver();
      DropAlwaysSucceeds(s, stmts[0].table);
      var x := ExecuteQuery(d, s, stmts[0]);
      assert x.outcome == Success;
      DropsSucceed(x.state, stmts[1..]);
      var rest := RunAll(d, x.state, stmts[1..]);
      assert RunAll(d, s, stmts).outcomes == [Success] + rest.outcomes;
      forall t ensures DropCascade(t) in stmts <==> t == stmts[0].table || DropCascade(t) in stmts[1..] {
        assert stmts == [stmts[0]] + stmts[1..];
      }
    }
  }

  /** The drop script succeeds on every statement from any state, leaves
      none of the six tables, and a second run ends in the same state. */
  lemma DropScriptEmptiesStore(s: Store)
    ensures var r := RunAll(StoreDriver(), s, DropScript);
      && AllSucceeded(r.outcomes)
      && r.state == map[]
      && var r2 := RunAll(StoreDriver(), r.state, DropScript);
        AllSucceeded(r2.outcomes) && r2.state == r.state
  {
    DropOrderChildrenFirst();
    var r := RunAll(StoreDriver(), s, DropScript);
    DropsSucceed(s, DropScript);
    DropsSucceed(r.state, DropScript);
    assert r.state.Keys == {};
  }

  /** One statement through the store driver: it succeeds exactly when the
      engine applies it, and then leaves the engine's store; otherwise the
      store is unchanged. */
  lemma StoreStep(s: Store, st: Stmt)
    ensures var x := ExecuteQuery(StoreDriver(), s, st);
      && (x.outcome == Success <==> Apply(s, st).Applied?)
      && x.state == (if Apply(s, st).Applied? then Apply(s, st).store else s)
      && (Apply(s, st).Refused? ==> x.outcome == ExecFailed(ErrorText(Apply(s, st).error)))
  {
  }

  /** The first step of a run, spelled out. */
  lemma RunAllCons(s: Store, stmts: seq<Stmt>)
    requires stmts != []
    ensures var x := ExecuteQuery(StoreDriver(), s, stmts[0]);
      var rest := RunAll(StoreDriver(), x.state, stmts[1..]);
      RunAll(StoreDriver(), s, stmts) == Batch(rest.state, [x.outcome] + rest.outcomes, x.effects + rest.effects)
  {
  }

  /** `p` exists in `s` or is created by one of the first `i` statements. */
  predicate CreatedBefore(s: Store, stmts: seq<Stmt>, i: int, p: Table) {
    p in s || exists j :: 0 <= j < i && j < |stmts| && stmts[j].table == p
  }

  /** A list of creates that can run cleanly on `s`: each names a new
      table, distinct from the others, whose parents exist already or are
      created earlier in the list. */
  predicate Creatable(s: Store, stmts: seq<Stmt>) {
    && (forall i :: 0 <= i < |stmts| ==> stmts[i].CreateTable? && stmts[i].table !in s)
    && (forall i, j :: 0 <= i < j < |stmts| ==> stmts[i].table != stmts[j].table)
    && (forall i, k :: 0 <= i < |stmts| && 0 <= k < |stmts[i].parents| ==>
      CreatedBefore(s, stmts, i, stmts[i].parents[k]))
  }

  /** A freshly created table: no rows, a live reference per FOREIGN KEY clause. */
  function Fresh(st: Stmt): TableState
    requires st.CreateTable?
  {
    TableState(Somes(st.parents), {})
  }

  /** `s` with the tables of `stmts` added, in order, each fresh. */
  function WithCreated(s: Store, stmts: seq<Stmt>): Store
    requires forall i :: 0 <= i < |stmts| ==> stmts[i].CreateTable?
    decreases |stmts|
  {
    if stmts == [] then s else WithCreated(s[stmts[0].table := Fresh(stmts[0])], stmts[1..])
  }

  /** The first create of a creatable list succeeds. */
  lemma CreateFirst(s: Store, stmts: seq<Stmt>)
    requires stmts != [] && Creatable(s, stmts)
    ensures var x := ExecuteQuery(StoreDriver(), s, stmts[0]);
      x.outcome == Success && x.state == s[stmts[0].table := Fresh(stmts[0])]
  {
    var c := stmts[0];
    forall k | 0 <= k < |c.parents| ensures c.parents[k] in s {
      assert CreatedBefore(s, stmts, 0, c.parents[k]);
    }
    CreateSucceedsIff(s, c.table, c.parents);
    StoreStep(s, c);
  }

  /** What is left of a creatable list after its first create is creatable. */
  lemma CreatableTail(s: Store, stmts: seq<Stmt>)
    requires stmts != [] && Creatable(s, stmts)
    ensures Creatable(s[stmts[0].table := Fresh(stmts[0])], stmts[1..])
  {
    var c := stmts[0];
    var s1 := s[c.table := Fresh(c)];
    var tail := stmts[1..];
    forall i | 0 <= i < |tail| ensures tail[i].CreateTable? && tail[i].table !in s1 {
      assert stmts[i + 1] == tail[i];
    }
    forall i, k | 0 <= i < |tail| && 0 <= k < |tail[i].parents|
      ensures CreatedBefore(s1, tail, i, tail[i].parents[k])
    {
      var p := tail[i].parents[k];
      assert stmts[i + 1] == tail[i];
      assert CreatedBefore(s, stmts, i + 1, p);
      if p !in s1 {
        var j :| 0 <= j < i + 1 && j < |stmts| && stmts[j].table == p;
        assert tail[j - 1] == stmts[j];
      }
    }
  }

  lemma SucceededCons(os: seq<Outcome>)
    requires AllSucceeded(os)
    ensures AllSucceeded([Success] + os)
  {
  }

  /** A creatable list succeeds on every statement and adds exactly its
      tables, each empty and referencing its declared parents. */
  lemma {:induction false} CreatesSucceed(s: Store, stmts: seq<Stmt>)
    requires Creatable(s, stmts)
    ensures var r := RunAll(StoreDriver(), s, stmts);
      AllSucceeded(r.outcomes) && r.state == WithCreated(s, stmts)
    decreases |stmts|
  {
    if stmts != [] {
      var s1 := s[stmts[0].table := Fresh(stmts[0])];
      CreateFirst(s, stmts);
      CreatableTail(s, stmts);
      RunAllCons(s, stmts);
      CreatesSucceed(s1, stmts[1..]);
      SucceededCons(RunAll(StoreDriver(), s1, stmts[1..]).outcomes);
    }
  }

  /** The create list can run on a store without tables. */
  lemma CreateScriptCreatable(empty: Store)
    requires forall t :: t !in empty
    ensures Creatable(empty, CreateScript)
  {
    var c := CreateScript;
    CreateOrderRespectsForeignKeys();
    forall i, k | 0 <= i < |c| && 0 <= k < |c[i].parents|
      ensures CreatedBefore(empty, c, i, c[i].parents[k])
    {
      var j :| 0 <= j < i && c[j].table == c[i].parents[k];
    }
  }

  lemma WithCreatedCons(s: Store, x: Stmt, rest: seq<Stmt>)
    requires x.CreateTable? && forall i :: 0 <= i < |rest| ==> rest[i].CreateTable?
    ensures WithCreated(s, [x] + rest) == WithCreated(s[x.table := Fresh(x)], rest)
  {
    assert ([x] + rest)[1..] == rest;
  }

  lemma WithCreatedSix(s: Store, a: Stmt, b: Stmt, c: Stmt, d: Stmt, e: Stmt, f: Stmt)
    requires a.CreateTable? && b.CreateTable? && c.CreateTable? && d.CreateTable? && e.CreateTable? && f.CreateTable?
    ensures WithCreated(s, [a, b, c, d, e, f]) ==
      s[a.table := Fresh(a)][b.table := Fresh(b)][c.table := Fresh(c)][d.table := Fresh(d)][e.table := Fresh(e)][f.table := Fresh(f)]
  {
    var s1 := s[a.table := Fresh(a)];
    var s2 := s1[b.table := Fresh(b)];
    var s3 := s2[c.table := Fresh(c)];
    var s4 := s3[d.table := Fresh(d)];
    var s5 := s4[e.table := Fresh(e)];
    WithCreatedCons(s, a, [b, c, d, e, f]);
    WithCreatedCons(s1, b, [c, d, e, f]);
    WithCreatedCons(s2, c, [d, e, f]);
    WithCreatedCons(s3, d, [e, f]);
    WithCreatedCons(s4, e, [f]);
    WithCreatedCons(s5, f, []);
    assert [a] + [b, c, d, e, f] == [a, b, c, d, e, f];
    assert [b] + [c, d, e, f] == [b, c, d, e, f];
    assert [c] + [d, e, f] == [c, d, e, f];
    assert [d] + [e, f] == [d, e, f];
    assert [e] + [f] == [e, f];
    assert [f] + [] == [f];
  }

  /** The create list, applied to no tables, yields `Created`. */
  lemma CreatedFromScratch()
    ensures forall i :: 0 <= i < |CreateScript| ==> CreateScript[i].CreateTable?
    ensures WithCreated(map[], CreateScript) == Created
  {
    var c := CreateScript;
    WithCreatedSix(map[], c[0], c[1], c[2], c[3], c[4], c[5]);
    assert Somes([]) == [];
    assert Somes([Branch]) == [Some(Branch)];
    assert Somes([Car]) == [Some(Car)];
    assert Somes([Customer, Rental]) == [Some(Customer), Some(Rental)];
    assert Somes([Customer, Car, Branch, Branch]) == [Some(Customer), Some(Car), Some(Branch), Some(Branch)];
  }

  /** On a store without tables the create script succeeds on all six
      statements and leaves the six tables, empty, with their declared
      references. */
  lemma CreateScriptOnEmptyStore(empty: Store)
    requires forall t :: t !in empty
    ensures var r := RunAll(StoreDriver(), empty, CreateScript);
      AllSucceeded(r.outcomes) && r.state == Created
  {
    assert empty == map[];
    CreateScriptCreatable(empty);
    CreatesSucceed(empty, CreateScript);
    CreatedFromScratch();
  }

  // ---------------------------------------------------------------------
  // The seed script

  /** `rows` inserts into `t` the keys `b`, `b + 1`, ... in list order. */
  predicate Numbered(rows: seq<Stmt>, t: Table, b: int) {
    forall i :: 0 <= i < |rows| ==> rows[i].Insert? && rows[i].table == t && rows[i].pk == b + i
  }

  /** A run of inserts into one table that can succeed row by row on `s`:
      the table exists and does not reference itself, the keys `b`,
      `b + 1`, ... are new, and every row supplies its foreign-key columns
      with values naming existing parent rows. */
  predicate Insertable(s: Store, t: Table, rows: seq<Stmt>, b: int) {
    && t in s && Numbered(rows, t, b)
    && (forall k :: b <= k < b + |rows| ==> k !in s[t].keys)
    && (forall j :: 0 <= j < |s[t].refs| ==> s[t].refs[j] != Some(t))
    && (forall i :: 0 <= i < |rows| ==>
      |rows[i].fks| == |s[t].refs| && ParentsPresent(s, s[t].refs, rows[i].fks))
  }

  /** `s` with key `k` added to table `t`. */
  function AddKey(s: Store, t: Table, k: int): Store
    requires t in s
  {
    s[t := s[t].(keys := s[t].keys + {k})]
  }

  /** The first insert of an insertable run succeeds. */
  lemma InsertFirst(s: Store, t: Table, rows: seq<Stmt>, b: int)
    requires rows != [] && Insertable(s, t, rows, b)
    ensures var x := ExecuteQuery(StoreDriver(), s, rows[0]);
      x.outcome == Success && x.state == AddKey(s, t, b)
  {
    var row := rows[0];
    InsertSucceedsIff(s, t, row.pk, row.fks);
    StoreStep(s, row);
  }

  /** What is left of an insertable run after its first insert is insertable. */
  lemma InsertableTail(s: Store, t: Table, rows: seq<Stmt>, b: int)
    requires rows != [] && Insertable(s, t, rows, b)
    ensures Insertable(AddKey(s, t, b), t, rows[1..], b + 1)
  {
    var s1 := AddKey(s, t, b);
    var tail := rows[1..];
    forall i | 0 <= i < |tail|
      ensures tail[i].Insert? && tail[i].table == t && tail[i].pk == b + 1 + i
      ensures |tail[i].fks| == |s1[t].refs| && ParentsPresent(s1, s1[t].refs, tail[i].fks)
    {
      assert rows[i + 1] == tail[i];
    }
  }

  /** An insertable run succeeds row by row; the table then holds exactly
      the new keys besides the old ones, and nothing else changes. */
  lemma {:induction false} InsertsSucceed(s: Store, t: Table, rows: seq<Stmt>, b: int)
    requires Insertable(s, t, rows, b)
    ensures var r := RunAll(StoreDriver(), s, rows);
      && AllSucceeded(r.outcomes)
      && r.state == s[t := s[t].(keys := s[t].keys + Range(b, b + |rows|))]
    decreases |rows|
  {
    if rows == [] {
      assert s[t].keys + Range(b, b) == s[t].keys;
      assert s[t].(keys := s[t].keys) == s[t];
    } else {
      var s1 := AddKey(s, t, b);
      InsertFirst(s, t, rows, b);
      InsertableTail(s, t, rows, b);
      RunAllCons(s, rows);
      InsertsSucceed(s1, t, rows[1..], b + 1);
      SucceededCons(RunAll(StoreDriver(), s1, rows[1..]).outcomes);
      assert s1[t].keys + Range(b + 1, b + |rows|) == s[t].keys + Range(b, b + |rows|);
    }
  }

  /** The rows of one table, inserted into a store where that table exists,
      empty, and every parent row they name exists. */
  lemma TableStage(s: Store, t: Table, rows: seq<Stmt>, refs: seq<Option<Table>>, n: nat)
    requires Insertable(s, t, rows, 1) && s[t] == TableState(refs, {}) && |rows| == n
    ensures var r := RunAll(StoreDriver(), s, rows);
      && AllSucceeded(r.outcomes)
      && r.state == s[t := TableState(refs, Range(1, n + 1))]
  {
    InsertsSucceed(s, t, rows, 1);
    assert s[t].keys + Range(1, 1 + n) == Range(1, n + 1);
  }

  /** The store after each group of seed rows. */
  const AfterBranches: Store := Created[Branch := TableState([], Range(1, 7))]
  const AfterCars: Store := AfterBranches[Car := TableState([Some(Branch)], Range(1, 11))]
  const AfterCustomers: Store := AfterCars[Customer := TableState([], Range(1, 6))]
  const AfterRentals: Store :=
    AfterCustomers[Rental := TableState([Some(Customer), Some(Car), Some(Branch), Some(Branch)], Range(1, 6))]
  const AfterBillings: Store := AfterRentals[Billing := TableState([Some(Customer), Some(Rental)], Range(1, 6))]
  const Seeded: Store := AfterBillings[Maintenance := TableState([Some(Car)], Range(1, 6))]

  /** Every row of `rows` is an insert supplying `n` foreign-key values,
      each between 1 and `m`. */
  predicate FksWithin(rows: seq<Stmt>, n: nat, m: int) {
    forall i :: 0 <= i < |rows| ==>
      rows[i].Insert? && |rows[i].fks| == n && forall k :: 0 <= k < n ==> 1 <= rows[i].fks[k] <= m
  }

  /** Rows numbered from 1 whose foreign-key values stay within 1..`m` are
      insertable into an empty table that does not reference itself and
      whose every parent holds the keys 1..`m`. */
  lemma InsertableFrom(s: Store, t: Table, rows: seq<Stmt>, m: int)
    requires t in s && s[t].keys == {} && Numbered(rows, t, 1) && FksWithin(rows, |s[t].refs|, m)
    requires forall j :: 0 <= j < |s[t].refs| ==>
      && s[t].refs[j] != Some(t)
      && (s[t].refs[j].Some? ==> s[t].refs[j].value in s && Range(1, m + 1) <= s[s[t].refs[j].value].keys)
    ensures Insertable(s, t, rows, 1)
  {
    forall i | 0 <= i < |rows| ensures ParentsPresent(s, s[t].refs, rows[i].fks) {
      forall j | 0 <= j < |s[t].refs| && s[t].refs[j].Some?
        ensures rows[i].fks[j] in s[s[t].refs[j].value].keys
      {
        assert rows[i].fks[j] in Range(1, m + 1);
      }
    }
  }

  lemma BranchRowsShape()
    ensures Numbered(BranchRows, Branch, 1) && FksWithin(BranchRows, 0, 0)
  {
  }

  lemma CarRowsShape()
    ensures Numbered(CarRows, Car, 1) && FksWithin(CarRows, 1, 6)
  {
  }

  lemma CustomerRowsShape()
    ensures Numbered(CustomerRows, Customer, 1) && FksWithin(CustomerRows, 0, 0)
  {
  }

  lemma RentalRowsShape()
    ensures Numbered(RentalRows, Rental, 1) && FksWithin(RentalRows, 4, 5)
  {
  }

  lemma BillingRowsShape()
    ensures Numbered(BillingRows, Billing, 1) && FksWithin(BillingRows, 2, 5)
  {
  }

  lemma MaintenanceRowsShape()
    ensures Numbered(MaintenanceRows, Maintenance, 1) && FksWithin(MaintenanceRows, 1, 5)
  {
  }

  lemma BeforeBranchRows()
    ensures Branch in Created && Created[Branch] == TableState([], {})
  {
  }

  lemma BeforeCarRows()
    ensures Car in AfterBranches && AfterBranches[Car] == TableState([Some(Branch)], {})
    ensures Branch in AfterBranches && AfterBranches[Branch].keys == Range(1, 7)
  {
  }

  lemma BeforeCustomerRows()
    ensures Customer in AfterCars && AfterCars[Customer] == TableState([], {})
  {
  }

  lemma BeforeRentalRows()
    ensures Rental in AfterCustomers && AfterCustomers[Rental] == TableState([Some(Customer), Some(Car), Some(Branch), Some(Branch)], {})
    ensures Customer in AfterCustomers && AfterCustomers[Customer].keys == Range(1, 6)
    ensures Car in AfterCustomers && AfterCustomers[Car].keys == Range(1, 11)
    ensures Branch in AfterCustomers && AfterCustomers[Branch].keys == Range(1, 7)
  {
  }

  lemma BeforeBillingRows()
    ensures Billing in AfterRentals && AfterRentals[Billing] == TableState([Some(Customer), Some(Rental)], {})
    ensures Customer in AfterRentals && AfterRentals[Customer].keys == Range(1, 6)
    ensures Rental in AfterRentals && AfterRentals[Rental].keys == Range(1, 6)
  {
  }

  lemma BeforeMaintenanceRows()
    ensures Maintenance in AfterBillings && AfterBillings[Maintenance] == TableState([Some(Car)], {})
    ensures Car in AfterBillings && AfterBillings[Car].keys == Range(1, 11)
  {
  }

  lemma BranchRowsInsertable()
    ensures Insertable(Created, Branch, BranchRows, 1) && Created[Branch] == TableState([], {})
  {
    BranchRowsShape();
    BeforeBranchRows();
    InsertableFrom(Created, Branch, BranchRows, 0);
  }

  lemma CarRowsInsertable()
    ensures Insertable(AfterBranches, Car, CarRows, 1) && AfterBranches[Car] == TableState([Some(Branch)], {})
  {
    CarRowsShape();
    BeforeCarRows();
    InsertableFrom(AfterBranches, Car, CarRows, 6);
  }

  lemma CustomerRowsInsertable()
    ensures Insertable(AfterCars, Customer, CustomerRows, 1) && AfterCars[Customer] == TableState([], {})
  {
    CustomerRowsShape();
    BeforeCustomerRows();
    InsertableFrom(AfterCars, Customer, CustomerRows, 0);
  }

  lemma RentalRowsInsertable()
    ensures Insertable(AfterCustomers, Rental, RentalRows, 1) && AfterCustomers[Rental] == TableState([Some(Customer), Some(Car), Some(Branch), Some(Branch)], {})
  {
    RentalRowsShape();
    BeforeRentalRows();
    InsertableFrom(AfterCustomers, Rental, RentalRows, 5);
  }

  lemma BillingRowsInsertable()
    ensures Insertable(AfterRentals, Billing, BillingRows, 1) && AfterRentals[Billing] == TableState([Some(Customer), Some(Rental)], {})
  {
    BillingRowsShape();
    BeforeBillingRows();
    InsertableFrom(AfterRentals, Billing, BillingRows, 5);
  }

  lemma MaintenanceRowsInsertable()
    ensures Insertable(AfterBillings, Maintenance, MaintenanceRows, 1) && AfterBillings[Maintenance] == TableState([Some(Car)], {})
  {
    MaintenanceRowsShape();
    BeforeMaintenanceRows();
    InsertableFrom(AfterBillings, Maintenance, MaintenanceRows, 5);
  }

  lemma BranchRowsRun()
    ensures var r := RunAll(StoreDriver(), Created, BranchRows);
      AllSucceeded(r.outcomes) && r.state == AfterBranches
  {
    BranchRowsInsertable();
    TableStage(Created, Branch, BranchRows, [], 6);
  }

  lemma CarRowsRun()
    ensures var r := RunAll(StoreDriver(), AfterBranches, CarRows);
      AllSucceeded(r.outcomes) && r.state == AfterCars
  {
    CarRowsInsertable();
    TableStage(AfterBranches, Car, CarRows, [Some(Branch)], 10);
  }

  lemma CustomerRowsRun()
    ensures var r := RunAll(StoreDriver(), AfterCars, CustomerRows);
      AllSucceeded(r.outcomes) && r.state == AfterCustomers
  {
    CustomerRowsInsertable();
    TableStage(AfterCars, Customer, CustomerRows, [], 5);
  }

  lemma RentalRowsRun()
    ensures var r := RunAll(StoreDriver(), AfterCustomers, RentalRows);
      AllSucceeded(r.outcomes) && r.state == AfterRentals
  {
    RentalRowsInsertable();
    TableStage(AfterCustomers, Rental, RentalRows, [Some(Customer), Some(Car), Some(Branch), Some(Branch)], 5);
  }

  lemma BillingRowsRun()
    ensures var r := RunAll(StoreDriver(), AfterRentals, BillingRows);
      AllSucceeded(r.outcomes) && r.state == AfterBillings
  {
    BillingRowsInsertable();
    TableStage(AfterRentals, Billing, BillingRows, [Some(Customer), Some(Rental)], 5);
  }

  lemma MaintenanceRowsRun()
    ensures var r := RunAll(StoreDriver(), AfterBillings, MaintenanceRows);
      AllSucceeded(r.outcomes) && r.state == Seeded
  {
    MaintenanceRowsInsertable();
    TableStage(AfterBillings, Maintenance, MaintenanceRows, [Some(Car)], 5);
  }

  /** Running two groups one after the other, each succeeding throughout,
      succeeds throughout. */
  lemma RunInTwo(s: Store, a: seq<Stmt>, b: seq<Stmt>, mid: Store, end: Store)
    requires var r := RunAll(StoreDriver(), s, a); AllSucceeded(r.outcomes) && r.state == mid
    requires var r := RunAll(StoreDriver(), mid, b); AllSucceeded(r.outcomes) && r.state == end
    ensures var r := RunAll(StoreDriver(), s, a + b); AllSucceeded(r.outcomes) && r.state == end
  {
    RunAllAppend(StoreDriver(), s, a, b);
  }

  /** After the create script, the seed script succeeds on every statement. */
  lemma SeedScriptOnCreated()
    ensures var r := RunAll(StoreDriver(), Created, SeedScript);
      AllSucceeded(r.outcomes) && r.state == Seeded
  {
    BranchRowsRun();
    CarRowsRun();
    CustomerRowsRun();
    RentalRowsRun();
    BillingRowsRun();
    MaintenanceRowsRun();
    var b := BranchRows;
    RunInTwo(Created, b, CarRows, AfterBranches, AfterCars);
    var c := b + CarRows;
    RunInTwo(Created, c, CustomerRows, AfterCars, AfterCustomers);
    var cu := c + CustomerRows;
    RunInTwo(Created, cu, RentalRows, AfterCustomers, AfterRentals);
    var re := cu + RentalRows;
    RunInTwo(Created, re, BillingRows, AfterRentals, AfterBillings);
    var bi := re + BillingRows;
    RunInTwo(Created, bi, MaintenanceRows, AfterBillings, Seeded);
  }

  /** The seeded store holds the six tables with their declared references
      and keys 1..n in each, n being 6, 10, 5, 5, 5 and 5. */
  lemma SeededRowCounts()
    ensures forall t :: t in Seeded && t in Created
    ensures forall t :: t in Seeded ==>
      && Seeded[t].refs == Created[t].refs
      && Seeded[t].keys == Range(1, RowCount(t) + 1)
      && |Seeded[t].keys| == RowCount(t)
  {
    forall t
      ensures t in Seeded && t in Created
      ensures Seeded[t].refs == Created[t].refs && Seeded[t].keys == Range(1, RowCount(t) + 1)
      ensures |Seeded[t].keys| == RowCount(t)
    {
      SeededTable(t);
      RangeSize(1, RowCount(t) + 1);
    }
  }

  lemma SeededTable(t: Table)
    ensures t in Created && t in Seeded && Seeded[t] == TableState(Created[t].refs, Range(1, RowCount(t) + 1))
  {
    match t
    case Branch =>
      assert Created[t].refs == [] && Seeded[t] == TableState([], Range(1, 7));
    case Car =>
      assert Created[t].refs == [Some(Branch)] && Seeded[t] == TableState([Some(Branch)], Range(1, 11));
    case Customer =>
      assert Created[t].refs == [] && Seeded[t] == TableState([], Range(1, 6));
    case Rental =>
      var refs := [Some(Customer), Some(Car), Some(Branch), Some(Branch)];
      assert Created[t].refs == refs && Seeded[t] == TableState(refs, Range(1, 6));
    case Billing =>
      assert Created[t].refs == [Some(Customer), Some(Rental)];
      assert Seeded[t] == TableState([Some(Customer), Some(Rental)], Range(1, 6));
    case Maintenance =>
      assert Created[t].refs == [Some(Car)] && Seeded[t] == TableState([Some(Car)], Range(1, 6));
  }

  // ---------------------------------------------------------------------
  // Integrity of the seed rows

  /** `s` with the keys the inserts of `stmts` add. */
  function Grown(s: Store, stmts: seq<Stmt>): (r: Store)
    ensures r.Keys == s.Keys
  {
    map u | u in s :: s[u].(keys := s[u].keys + InsertedKeys(stmts, u))
  }

  /** When every insert of a run succeeds, statement `i` met a store that
      held exactly the rows of the statements before it, and the run ends
      with all of them added. */
  lemma {:induction false} InsertsGrow(s: Store, stmts: seq<Stmt>)
    requires forall i :: 0 <= i < |stmts| ==> stmts[i].Insert?
    requires AllSucceeded(RunAll(StoreDriver(), s, stmts).outcomes)
    ensures RunAll(StoreDriver(), s, stmts).state == Grown(s, stmts)
    ensures forall i :: 0 <= i < |stmts| ==> Apply(Grown(s, stmts[..i]), stmts[i]).Applied?
    decreases |stmts|
  {
    if stmts == [] {
      GrownNone(s);
    } else {
      var n := |stmts| - 1;
      var pre := stmts[..n];
      var last := stmts[n];
      assert stmts == pre + [last];
      SucceededPrefix(s, pre, last);
      InsertsGrow(s, pre);
      LastInsert(s, pre, last);
      AppliedExtend(s, pre, last);
    }
  }

  lemma GrownNone(s: Store)
    ensures Grown(s, []) == s
  {
    forall u | u in s ensures Grown(s, [])[u] == s[u] {
      assert s[u].keys + {} == s[u].keys;
    }
  }

  /** Every statement of `pre + [last]` meets a store grown by exactly the
      statements before it, once `pre`'s do and `last` does. */
  lemma AppliedExtend(s: Store, pre: seq<Stmt>, last: Stmt)
    requires forall i :: 0 <= i < |pre| ==> Apply(Grown(s, pre[..i]), pre[i]).Applied?
    requires Apply(Grown(s, pre), last).Applied?
    ensures forall i :: 0 <= i < |pre| + 1 ==> Apply(Grown(s, (pre + [last])[..i]), (pre + [last])[i]).Applied?
  {
    var stmts := pre + [last];
    forall i | 0 <= i < |stmts| ensures Apply(Grown(s, stmts[..i]), stmts[i]).Applied? {
      if i < |pre| {
        assert stmts[..i] == pre[..i];
      } else {
        assert stmts[..i] == pre;
      }
    }
  }

  /** A run that succeeds throughout succeeds throughout its prefix. */
  lemma SucceededPrefix(s: Store, pre: seq<Stmt>, last: Stmt)
    requires AllSucceeded(RunAll(StoreDriver(), s, pre + [last]).outcomes)
    ensures AllSucceeded(RunAll(StoreDriver(), s, pre).outcomes)
    ensures RunAll(StoreDriver(), s, pre + [last]).outcomes[|pre|] == Success
  {
    RunAllAppend(StoreDriver(), s, pre, [last]);
    var rp := RunAll(StoreDriver(), s, pre);
    var all := RunAll(StoreDriver(), s, pre + [last]).outcomes;
    assert forall i :: 0 <= i < |pre| ==> rp.outcomes[i] == all[i];
  }

  /** The step that extends a run of successful inserts by one more. */
  lemma LastInsert(s: Store, pre: seq<Stmt>, last: Stmt)
    requires last.Insert?
    requires RunAll(StoreDriver(), s, pre).state == Grown(s, pre)
    requires RunAll(StoreDriver(), s, pre + [last]).outcomes[|pre|] == Success
    ensures Apply(Grown(s, pre), last).Applied?
    ensures RunAll(StoreDriver(), s, pre + [last]).state == Grown(s, pre + [last])
  {
    var d := StoreDriver();
    RunAllAppend(d, s, pre, [last]);
    var rp := RunAll(d, s, pre);
    var x := ExecuteQuery(d, rp.state, last);
    RunAllCons(rp.state, [last]);
    var rb := RunAll(d, rp.state, [last]);
    assert rb.outcomes == [x.outcome] && rb.state == x.state by {
      assert [last][1..] == [];
    }
    assert (rp.outcomes + rb.outcomes)[|pre|] == x.outcome;
    StoreStep(rp.state, last);
    GrowOne(s, pre, last);
  }

  /** One more successful insert grows the store by its key. */
  lemma GrowOne(s: Store, pre: seq<Stmt>, last: Stmt)
    requires last.Insert? && Apply(Grown(s, pre), last).Applied?
    ensures Apply(Grown(s, pre), last).store == Grown(s, pre + [last])
  {
    var g := Grown(s, pre);
    InsertSucceedsIff(g, last.table, last.pk, last.fks);
    var a := Apply(g, last).store;
    var b := Grown(s, pre + [last]);
    forall u | u in s ensures a[u] == b[u] {
      InsertedKeysAppend(pre, [last], u);
    }
    assert a.Keys == b.Keys;
  }

  /** Each table right after the create script: empty, referencing its
      declared parents. */
  lemma CreatedTable(t: Table)
    ensures t in Created && Created[t].keys == {} && Created[t].refs == Somes(DeclaredParents(t))
  {
    match t
    case Branch =>
      assert Somes([]) == [];
    case Car =>
      assert Somes([Branch]) == [Some(Branch)];
    case Customer =>
      assert Somes([]) == [];
    case Rental =>
      assert Somes([Customer, Car, Branch, Branch]) == [Some(Customer), Some(Car), Some(Branch), Some(Branch)];
    case Billing =>
      assert Somes([Customer, Rental]) == [Some(Customer), Some(Rental)];
    case Maintenance =>
      assert Somes([Car]) == [Some(Car)];
  }

  /** Every statement of the seed script is an insert. */
  lemma SeedScriptInserts()
    ensures forall i :: 0 <= i < |SeedScript| ==> SeedScript[i].Insert?
  {
    assert Numbered(BranchRows, Branch, 1);
    assert Numbered(CarRows, Car, 1);
    assert Numbered(CustomerRows, Customer, 1);
    assert Numbered(RentalRows, Rental, 1);
    assert Numbered(BillingRows, Billing, 1);
    assert Numbered(MaintenanceRows, Maintenance, 1);
  }

  /** A run of inserts that succeeds throughout, from a store whose tables
      are all empty, inserts unique keys per table, and each row's
      foreign-key values name rows inserted earlier in the run. */
  lemma InsertRunIntegrity(s: Store, stmts: seq<Stmt>)
    requires forall i :: 0 <= i < |stmts| ==> stmts[i].Insert?
    requires forall t :: t in s ==> s[t].keys == {}
    requires AllSucceeded(RunAll(StoreDriver(), s, stmts).outcomes)
    ensures forall i, j :: 0 <= i < j < |stmts| && stmts[i].table == stmts[j].table ==>
      stmts[i].pk != stmts[j].pk
    ensures forall i :: 0 <= i < |stmts| ==>
      stmts[i].table in s && |stmts[i].fks| == |s[stmts[i].table].refs|
    ensures forall i, k ::
      (0 <= i < |stmts| && stmts[i].table in s && 0 <= k < |s[stmts[i].table].refs| &&
       k < |stmts[i].fks| && s[stmts[i].table].refs[k].Some?) ==>
      stmts[i].fks[k] in InsertedKeys(stmts[..i], s[stmts[i].table].refs[k].value)
  {
    InsertsGrow(s, stmts);
    AppliedIntegrity(s, stmts);
  }

  /** The integrity of a run of inserts each of which met a store grown by
      exactly the statements before it. */
  lemma AppliedIntegrity(s: Store, stmts: seq<Stmt>)
    requires forall i :: 0 <= i < |stmts| ==> stmts[i].Insert?
    requires forall t :: t in s ==> s[t].keys == {}
    requires forall i :: 0 <= i < |stmts| ==> Apply(Grown(s, stmts[..i]), stmts[i]).Applied?
    ensures forall i, j :: 0 <= i < j < |stmts| && stmts[i].table == stmts[j].table ==>
      stmts[i].pk != stmts[j].pk
    ensures forall i :: 0 <= i < |stmts| ==>
      stmts[i].table in s && |stmts[i].fks| == |s[stmts[i].table].refs|
    ensures forall i, k ::
      (0 <= i < |stmts| && stmts[i].table in s && 0 <= k < |s[stmts[i].table].refs| &&
       k < |stmts[i].fks| && s[stmts[i].table].refs[k].Some?) ==>
      stmts[i].fks[k] in InsertedKeys(stmts[..i], s[stmts[i].table].refs[k].value)
  {
    forall i | 0 <= i < |stmts|
      ensures stmts[i].table in s && |stmts[i].fks| == |s[stmts[i].table].refs|
      ensures stmts[i].pk !in InsertedKeys(stmts[..i], stmts[i].table)
      ensures forall k :: 0 <= k < |s[stmts[i].table].refs| && k < |stmts[i].fks| && s[stmts[i].table].refs[k].Some? ==>
        stmts[i].fks[k] in InsertedKeys(stmts[..i], s[stmts[i].table].refs[k].value)
    {
      StepIntegrity(s, stmts[..i], stmts[i]);
    }
    forall i, j | 0 <= i < j < |stmts| && stmts[i].table == stmts[j].table
      ensures stmts[i].pk != stmts[j].pk
    {
      assert stmts[..j][i] == stmts[i];
    }
  }

  /** An insert that met the store grown by `pre` names an existing table,
      supplies all its foreign-key columns, adds a key `pre` did not, and
      points only at rows `pre` added. */
  lemma StepIntegrity(s: Store, pre: seq<Stmt>, st: Stmt)
    requires st.Insert?
    requires forall t :: t in s ==> s[t].keys == {}
    requires Apply(Grown(s, pre), st).Applied?
    ensures st.table in s && |st.fks| == |s[st.table].refs|
    ensures st.pk !in InsertedKeys(pre, st.table)
    ensures forall k :: 0 <= k < |s[st.table].refs| && k < |st.fks| && s[st.table].refs[k].Some? ==>
      st.fks[k] in InsertedKeys(pre, s[st.table].refs[k].value)
  {
    var g := Grown(s, pre);
    InsertSucceedsIff(g, st.table, st.pk, st.fks);
    assert ParentsPresent(g, g[st.table].refs, st.fks);
  }

  /** The rows of an insert script are sound on their own: primary keys are
      unique within each table, each row supplies one value per declared
      foreign key, and every foreign-key value names a row of the referenced
      table inserted earlier in the script. */
  predicate SoundRows(S: seq<Stmt>)
    requires forall i :: 0 <= i < |S| ==> S[i].Insert?
  {
    && (forall i, j :: 0 <= i < j < |S| && S[i].table == S[j].table ==> S[i].pk != S[j].pk)
    && (forall i :: 0 <= i < |S| ==> |S[i].fks| == |DeclaredParents(S[i].table)|)
    && (forall i, k :: 0 <= i < |S| && 0 <= k < |S[i].fks| && k < |DeclaredParents(S[i].table)| ==>
         S[i].fks[k] in InsertedKeys(S[..i], DeclaredParents(S[i].table)[k]))
  }

  /** The seed script's rows are sound. */
  lemma SeedIntegrity()
    ensures forall i :: 0 <= i < |SeedScript| ==> SeedScript[i].Insert?
    ensures SoundRows(SeedScript)
  {
    SeedScriptInserts();
    SeedScriptOnCreated();
    SeedRunIntegrity(SeedScript);
  }

  /** Any insert script that succeeds throughout after the create script
      has sound rows. */
  lemma SeedRunIntegrity(S: seq<Stmt>)
    requires forall i :: 0 <= i < |S| ==> S[i].Insert?
    requires AllSucceeded(RunAll(StoreDriver(), Created, S).outcomes)
    ensures SoundRows(S)
  {
    forall t | t in Created ensures Created[t].keys == {} {
      CreatedTable(t);
    }
    InsertRunIntegrity(Created, S);
    forall t ensures t in Created && Created[t].refs == Somes(DeclaredParents(t)) {
      CreatedTable(t);
    }
  }
}
