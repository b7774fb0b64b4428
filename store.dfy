/**
 * The record store behind the bot: a table of rows, each a map from column name to
 * value, queried with a conjunction of `(key, comparisonOperator, value)` filters
 * (src/database/database.js). SQL's treatment of NULL is kept: a comparison with
 * NULL never holds, `is` / `is not` compare including NULL, and a column a row does
 * not have reads as NULL.
 */
module Store {

  /** A column value. `Uid` is the fresh identifier the store draws for a new row. */
  datatype Value = Null | Str(s: string) | Num(n: int) | Bool(b: bool) | Uid(u: nat) | List(items: seq<Value>)

  type Row = map<string, Value>

  /** The comparison operators the callers use. */
  datatype Op = Eq | Ne | Gt | Lt | Le | Ge | Is | IsNot | In

  datatype Filter = Filter(key: string, op: Op, value: Value)

  /** The rows of a table and the counter its fresh identifiers come from. */
  datatype TableState = TableState(rows: seq<Row>, serial: nat)

  /** The value of column `key`; NULL when the row has no such column. */
  function Get(r: Row, key: string): Value {
    if key in r then r[key] else Null
  }

  /** SQL's reading of `v <op> w`. */
  predicate Holds(v: Value, op: Op, w: Value) {
    match op
    case Is => v == w
    case IsNot => v != w
    case In => v != Null && w.List? && v in w.items
    case Eq => v != Null && w != Null && v == w
    case Ne => v != Null && w != Null && v != w
    case Gt => v.Num? && w.Num? && v.n > w.n
    case Lt => v.Num? && w.Num? && v.n < w.n
    case Le => v.Num? && w.Num? && v.n <= w.n
    case Ge => v.Num? && w.Num? && v.n >= w.n
  }

  predicate Satisfies(r: Row, f: Filter) {
    Holds(Get(r, f.key), f.op, f.value)
  }

  /** The filters form a conjunction; the empty list matches every row. */
  predicate MatchesAll(r: Row, fs: seq<Filter>) {
    forall i :: 0 <= i < |fs| ==> Satisfies(r, fs[i])
  }

  /** The rows matching every filter, in table order. */
  function Select(rows: seq<Row>, fs: seq<Filter>): seq<Row>
  {
    if rows == [] then []
    else Select(rows[..|rows| - 1], fs) + (if MatchesAll(rows[|rows| - 1], fs) then [rows[|rows| - 1]] else [])
  }

  /** The rows some filter rejects, in table order: what a delete leaves. */
  function Reject(rows: seq<Row>, fs: seq<Filter>): seq<Row>
  {
    if rows == [] then []
    else Reject(rows[..|rows| - 1], fs) + (if MatchesAll(rows[|rows| - 1], fs) then [] else [rows[|rows| - 1]])
  }

  /** Every matching row with the columns of `data` overwritten. */
  function Patch(rows: seq<Row>, fs: seq<Filter>, data: Row): seq<Row>
  {
    seq(|rows|, i requires 0 <= i < |rows| => if MatchesAll(rows[i], fs) then rows[i] + data else rows[i])
  }

  /** The row `insert(data)` writes: a fresh id first, then the caller's columns. */
  function NewRow(serial: nat, data: Row): Row {
    map["id" := Uid(serial)] + data
  }

  /** The table after `insert(data)`. */
  function Inserted(t: TableState, data: Row): TableState {
    TableState(t.rows + [NewRow(t.serial, data)], t.serial + 1)
  }

  /** The table after `delete(filters)`. */
  function Deleted(t: TableState, fs: seq<Filter>): TableState {
    TableState(Reject(t.rows, fs), t.serial)
  }

  // ---------------------------------------------------------------------------
  // What the queries mean.

  /** A row is selected exactly when it is in the table and matches every filter. */
  lemma {:induction false} SelectSpec(rows: seq<Row>, fs: seq<Filter>, r: Row)
    ensures r in Select(rows, fs) <==> r in rows && MatchesAll(r, fs)
    ensures |Select(rows, fs)| <= |rows|
  {
    if rows != [] {
      var init := rows[..|rows| - 1];
      SelectSpec(init, fs, r);
      assert rows == init + [rows[|rows| - 1]];
    }
  }

  /** With no filters, every row is selected. */
  lemma {:induction false} SelectNone(rows: seq<Row>)
    ensures Select(rows, []) == rows
  {
    if rows != [] {
      SelectNone(rows[..|rows| - 1]);
      assert rows == rows[..|rows| - 1] + [rows[|rows| - 1]];
    }
  }

  /** Narrowing a selection by one more filter is selecting with that filter added. */
  lemma {:induction false} SelectNarrow(rows: seq<Row>, fs: seq<Filter>, f: Filter)
    ensures Select(Select(rows, fs), [f]) == Select(rows, fs + [f])
  {
    if rows != [] {
      var init, last := rows[..|rows| - 1], rows[|rows| - 1];
      SelectNarrow(init, fs, f);
      SelectAppend(Select(init, fs), if MatchesAll(last, fs) then [last] else [], [f]);
      assert MatchesAll(last, fs + [f]) <==> MatchesAll(last, fs) && Satisfies(last, f) by {
        if MatchesAll(last, fs) && Satisfies(last, f) {
          forall i | 0 <= i < |fs + [f]| ensures Satisfies(last, (fs + [f])[i]) {
            if i < |fs| { assert (fs + [f])[i] == fs[i]; }
          }
        }
        if MatchesAll(last, fs + [f]) {
          assert (fs + [f])[|fs|] == f;
          forall i | 0 <= i < |fs| ensures Satisfies(last, fs[i]) {
            assert (fs + [f])[i] == fs[i];
          }
        }
      }
      if MatchesAll(last, fs) {
        assert Select([last], [f]) == (if Satisfies(last, f) then [last] else []) by {
          assert [last][..0] == [];
          assert MatchesAll(last, [f]) <==> Satisfies(last, f) by {
            assert [f][0] == f;
          }
        }
      } else {
        assert Select([], [f]) == [];
      }
    }
  }

  lemma {:induction false} SelectAppend(a: seq<Row>, b: seq<Row>, fs: seq<Filter>)
    ensures Select(a + b, fs) == Select(a, fs) + Select(b, fs)
    decreases |b|
  {
    if b == [] {
      assert a + b == a;
    } else {
      var init, last := b[..|b| - 1], b[|b| - 1];
      SelectAppend(a, init, fs);
      assert (a + b)[..|a + b| - 1] == a + init;
      assert (a + b)[|a + b| - 1] == last;
    }
  }

  /** A delete keeps exactly the rows some filter rejects. */
  lemma {:induction false} RejectSpec(rows: seq<Row>, fs: seq<Filter>, r: Row)
    ensures r in Reject(rows, fs) <==> r in rows && !MatchesAll(r, fs)
  {
    if rows != [] {
      var init := rows[..|rows| - 1];
      RejectSpec(init, fs, r);
      assert rows == init + [rows[|rows| - 1]];
    }
  }

  /** Selected and surviving rows together are the table: nothing is lost or duplicated. */
  lemma {:induction false} SelectRejectPartition(rows: seq<Row>, fs: seq<Filter>)
    ensures multiset(Select(rows, fs)) + multiset(Reject(rows, fs)) == multiset(rows)
    ensures |Select(rows, fs)| + |Reject(rows, fs)| == |rows|
  {
    if rows != [] {
      var init, last := rows[..|rows| - 1], rows[|rows| - 1];
      SelectRejectPartition(init, fs);
      assert rows == init + [last];
      assert multiset(rows) == multiset(init) + multiset{last};
      if MatchesAll(last, fs) {
        assert Select(rows, fs) == Select(init, fs) + [last];
        assert Reject(rows, fs) == Reject(init, fs);
        assert multiset(Select(rows, fs)) == multiset(Select(init, fs)) + multiset{last};
      } else {
        assert Select(rows, fs) == Select(init, fs);
        assert Reject(rows, fs) == Reject(init, fs) + [last];
        assert multiset(Reject(rows, fs)) == multiset(Reject(init, fs)) + multiset{last};
      }
    }
  }

  /** Deleting rows never adds to a selection. */
  lemma {:induction false} RejectShrinks(rows: seq<Row>, fs: seq<Filter>, gs: seq<Filter>)
    ensures |Select(Reject(rows, fs), gs)| <= |Select(rows, gs)|
  {
    if rows != [] {
      var init, last := rows[..|rows| - 1], rows[|rows| - 1];
      RejectShrinks(init, fs, gs);
      assert |Select(rows, gs)| >= |Select(init, gs)|;
      if MatchesAll(last, fs) {
        assert Reject(rows, fs) == Reject(init, fs) + [] == Reject(init, fs);
      } else {
        assert Reject(rows, fs) == Reject(init, fs) + [last];
        SelectSnoc(Reject(init, fs), last, gs);
      }
    }
  }

  /** After a delete, nothing a narrower query matches is left. */
  lemma {:induction false} RejectClears(rows: seq<Row>, fs: seq<Filter>, gs: seq<Filter>)
    requires forall r :: MatchesAll(r, gs) ==> MatchesAll(r, fs)
    ensures Select(Reject(rows, fs), gs) == []
  {
    if rows != [] {
      var init, last := rows[..|rows| - 1], rows[|rows| - 1];
      RejectClears(init, fs, gs);
      if MatchesAll(last, fs) {
        assert Reject(rows, fs) == Reject(init, fs) + [] == Reject(init, fs);
      } else {
        assert Reject(rows, fs) == Reject(init, fs) + [last];
        SelectSnoc(Reject(init, fs), last, gs);
      }
    }
  }

  /** An empty filter list deletes every row. */
  lemma {:induction false} RejectNone(rows: seq<Row>)
    ensures Reject(rows, []) == []
  {
    if rows != [] {
      RejectNone(rows[..|rows| - 1]);
    }
  }

  /** An update touches only matching rows, and in them only the columns of `data`. */
  lemma PatchSpec(rows: seq<Row>, fs: seq<Filter>, data: Row, i: nat, key: string)
    requires i < |rows|
    ensures |Patch(rows, fs, data)| == |rows|
    ensures !MatchesAll(rows[i], fs) ==> Patch(rows, fs, data)[i] == rows[i]
    ensures MatchesAll(rows[i], fs) && key in data ==> Get(Patch(rows, fs, data)[i], key) == data[key]
    ensures key !in data ==> Get(Patch(rows, fs, data)[i], key) == Get(rows[i], key)
  {
  }

  /** The fresh id is the row's id unless the caller supplied one, which then wins. */
  lemma NewRowSpec(serial: nat, data: Row, key: string)
    ensures Get(NewRow(serial, data), "id") == if "id" in data then data["id"] else Uid(serial)
    ensures key != "id" ==> Get(NewRow(serial, data), key) == Get(data, key)
  {
  }

  /** Rows gained at the end of a table are selected after the old selection. */
  lemma SelectSnoc(rows: seq<Row>, r: Row, fs: seq<Filter>)
    ensures Select(rows + [r], fs) == Select(rows, fs) + (if MatchesAll(r, fs) then [r] else [])
  {
    assert (rows + [r])[..|rows + [r]| - 1] == rows;
  }

  /**
   * `parseFilters`: the query starts as the whole table and every filter adds a
   * `where` clause, narrowing it.
   */
  method ParseFilters(rows: seq<Row>, fs: seq<Filter>) returns (found: seq<Row>)
    ensures found == Select(rows, fs)
  {
    found := rows;
    SelectNone(rows);
    var i := 0;
    while i < |fs|
      invariant 0 <= i <= |fs|
      invariant found == Select(rows, fs[..i])
    {
      SelectNarrow(rows, fs[..i], fs[i]);
      assert fs[..i + 1] == fs[..i] + [fs[i]];
      found := Select(found, [fs[i]]);
      i := i + 1;
    }
    assert fs[..i] == fs;
  }

  /** One table of the database (`new Database(entity)`). */
  class Table {
    var rows: seq<Row>
    var serial: nat

    function State(): TableState
      reads this
    {
      TableState(rows, serial)
    }

    constructor ()
      ensures rows == [] && serial == 0
    {
      rows := [];
      serial := 0;
    }

    /** `find(filters)`: exactly the rows matching every filter, in table order. */
    method Find(fs: seq<Filter>) returns (found: seq<Row>)
      ensures found == Select(rows, fs)
      ensures forall r :: r in found <==> r in rows && MatchesAll(r, fs)
    {
      found := ParseFilters(rows, fs);
      forall r ensures r in found <==> r in rows && MatchesAll(r, fs) {
        SelectSpec(rows, fs, r);
      }
    }

    /** `insert(data)`: one new row, `{id: uuid(), ...data}`, at the end of the table. */
    method Insert(data: Row) returns (id: Value)
      modifies this
      ensures State() == Inserted(old(State()), data)
      ensures id == Uid(old(serial))
    {
      id := Uid(serial);
      rows := rows + [NewRow(serial, data)];
      serial := serial + 1;
    }

    /** `delete(filters)`: the matching rows go, every other row stays in order. */
    method Delete(fs: seq<Filter>) returns (count: nat)
      modifies this
      ensures State() == Deleted(old(State()), fs)
      ensures count + |rows| == |old(rows)|
    {
      var doomed := ParseFilters(rows, fs);
      SelectRejectPartition(rows, fs);
      rows := Reject(rows, fs);
      count := |doomed|;
    }

    /** `update(filters, data)`: the matching rows get the columns of `data`. */
    method Update(fs: seq<Filter>, data: Row) returns (count: nat)
      modifies this
      ensures rows == Patch(old(rows), fs, data) && serial == old(serial)
      ensures count == |Select(old(rows), fs)|
    {
      var hit := ParseFilters(rows, fs);
      rows := Patch(rows, fs, data);
      count := |hit|;
    }
  }
}
