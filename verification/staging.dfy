/**
 * The staged result import used for every project-level result table:
 * delete the scenario's permanent rows, (re)create a temporary table whose
 * name carries the scenario id, insert the CSV rows into it under the
 * primary key (scenario_id, project, timepoint), copy them into the
 * permanent table ordered by that key, and drop the temporary table.
 *
 * Tables are abstract: a row maps column names to cells, and a table is the
 * sequence of its rows in insertion order.
 */
module Staging {
  import opened Wrappers

  datatype Cell = IntCell(i: int) | RealCell(x: real) | TextCell(s: string)

  type Row = map<string, Cell>

  /** `INSERT INTO t (columns) VALUES (values)`: each column gets the value at the same position. */
  function Zip(columns: seq<string>, values: seq<Cell>): (row: Row)
    requires |columns| == |values|
    ensures row.Keys == set c | c in columns
    decreases |columns|
  {
    if columns == [] then map[]
    else Zip(columns[..|columns| - 1], values[..|values| - 1])[columns[|columns| - 1] := values[|values| - 1]]
  }

  predicate Distinct(columns: seq<string>) {
    forall i, j :: 0 <= i < j < |columns| ==> columns[i] != columns[j]
  }

  /** With distinct column names, column i of the inserted row holds value i. */
  lemma {:induction false} ZipAt(columns: seq<string>, values: seq<Cell>, i: nat)
    requires |columns| == |values| && Distinct(columns) && i < |columns|
    ensures Zip(columns, values)[columns[i]] == values[i]
    decreases |columns|
  {
    var n := |columns| - 1;
    if i < n {
      assert columns[..n][i] == columns[i];
      assert values[..n][i] == values[i];
      ZipAt(columns[..n], values[..n], i);
    }
  }

  // ---------------------------------------------------------------------
  // The primary key and the ORDER BY of the copy into the permanent table

  datatype Key = Key(scenarioId: int, project: string, timepoint: int)

  function IntAt(row: Row, column: string): int {
    if column in row && row[column].IntCell? then row[column].i else 0
  }

  function TextAt(row: Row, column: string): string {
    if column in row && row[column].TextCell? then row[column].s else ""
  }

  function KeyOf(row: Row): Key {
    Key(IntAt(row, "scenario_id"), TextAt(row, "project"), IntAt(row, "timepoint"))
  }

  /** Text ordering by code point, as the database's binary collation orders VARCHAR. */
  predicate TextLe(a: string, b: string)
    decreases |a|
  {
    |a| == 0 || (|b| > 0 && (a[0] < b[0] || (a[0] == b[0] && TextLe(a[1..], b[1..]))))
  }

  lemma {:induction false} TextLeTotal(a: string, b: string)
    ensures TextLe(a, b) || TextLe(b, a)
    decreases |a|
  {
    if |a| > 0 && |b| > 0 && a[0] == b[0] {
      TextLeTotal(a[1..], b[1..]);
    }
  }

  lemma {:induction false} TextLeAntisymmetric(a: string, b: string)
    requires TextLe(a, b) && TextLe(b, a)
    ensures a == b
    decreases |a|
  {
    if |a| > 0 {
      TextLeAntisymmetric(a[1..], b[1..]);
      assert a == [a[0]] + a[1..] && b == [b[0]] + b[1..];
    }
  }

  lemma {:induction false} TextLeTransitive(a: string, b: string, c: string)
    requires TextLe(a, b) && TextLe(b, c)
    ensures TextLe(a, c)
    decreases |a|
  {
    if |a| > 0 && a[0] == b[0] && b[0] == c[0] {
      TextLeTransitive(a[1..], b[1..], c[1..]);
    }
  }

  /** ORDER BY scenario_id, project, timepoint. */
  predicate KeyLe(a: Key, b: Key) {
    a.scenarioId < b.scenarioId
    || (a.scenarioId == b.scenarioId
        && ((a.project != b.project && TextLe(a.project, b.project))
            || (a.project == b.project && a.timepoint <= b.timepoint)))
  }

  lemma KeyLeTotal(a: Key, b: Key)
    ensures KeyLe(a, b) || KeyLe(b, a)
  {
    TextLeTotal(a.project, b.project);
  }

  lemma KeyLeTransitive(a: Key, b: Key, c: Key)
    requires KeyLe(a, b) && KeyLe(b, c)
    ensures KeyLe(a, c)
  {
    if a.scenarioId == b.scenarioId == c.scenarioId {
      if a.project != b.project && b.project != c.project {
        TextLeTransitive(a.project, b.project, c.project);
        if a.project == c.project {
          TextLeAntisymmetric(a.project, b.project);
        }
      }
    }
  }

  predicate SortedByKey(s: seq<Row>) {
    forall i, j :: 0 <= i < j < |s| ==> KeyLe(KeyOf(s[i]), KeyOf(s[j]))
  }

  function InsertByKey(x: Row, s: seq<Row>): seq<Row>
    decreases |s|
  {
    if s == [] || KeyLe(KeyOf(x), KeyOf(s[0])) then [x] + s
    else [s[0]] + InsertByKey(x, s[1..])
  }

  /** The rows of a table in ORDER BY (scenario_id, project, timepoint) order. */
  function SortByKey(s: seq<Row>): seq<Row>
    decreases |s|
  {
    if s == [] then [] else InsertByKey(s[0], SortByKey(s[1..]))
  }

  lemma {:induction false} InsertByKeyPermutes(x: Row, s: seq<Row>)
    ensures multiset(InsertByKey(x, s)) == multiset(s) + multiset{x}
    decreases |s|
  {
    if s != [] && !KeyLe(KeyOf(x), KeyOf(s[0])) {
      InsertByKeyPermutes(x, s[1..]);
      assert s == [s[0]] + s[1..];
    }
  }

  /** Every row of `s` sorts at or after key `k`. */
  predicate AllFrom(k: Key, s: seq<Row>) {
    forall i :: 0 <= i < |s| ==> KeyLe(k, KeyOf(s[i]))
  }

  lemma {:induction false} InsertByKeyKeepsLowerBound(k: Key, x: Row, s: seq<Row>)
    requires AllFrom(k, s) && KeyLe(k, KeyOf(x))
    ensures AllFrom(k, InsertByKey(x, s))
    decreases |s|
  {
    if s != [] && !KeyLe(KeyOf(x), KeyOf(s[0])) {
      InsertByKeyKeepsLowerBound(k, x, s[1..]);
      var tail := InsertByKey(x, s[1..]);
      assert InsertByKey(x, s) == [s[0]] + tail;
      forall i | 0 <= i < |tail| + 1 ensures KeyLe(k, KeyOf(([s[0]] + tail)[i])) {
        if i > 0 {
          assert ([s[0]] + tail)[i] == tail[i - 1];
        }
      }
    }
  }

  lemma {:induction false} InsertByKeySorts(x: Row, s: seq<Row>)
    requires SortedByKey(s)
    ensures SortedByKey(InsertByKey(x, s))
    decreases |s|
  {
    if s == [] {
    } else if KeyLe(KeyOf(x), KeyOf(s[0])) {
      var r := [x] + s;
      forall i, j | 0 <= i < j < |r| ensures KeyLe(KeyOf(r[i]), KeyOf(r[j])) {
        if i == 0 && j > 1 {
          KeyLeTransitive(KeyOf(x), KeyOf(s[0]), KeyOf(s[j - 1]));
        }
      }
    } else {
      KeyLeTotal(KeyOf(x), KeyOf(s[0]));
      var tail := InsertByKey(x, s[1..]);
      InsertByKeySorts(x, s[1..]);
      assert AllFrom(KeyOf(s[0]), s[1..]) by {
        forall i | 0 <= i < |s[1..]| ensures KeyLe(KeyOf(s[0]), KeyOf(s[1..][i])) {
          assert s[1..][i] == s[i + 1];
        }
      }
      InsertByKeyKeepsLowerBound(KeyOf(s[0]), x, s[1..]);
      var r := [s[0]] + tail;
      assert InsertByKey(x, s) == r;
      forall i, j | 0 <= i < j < |r| ensures KeyLe(KeyOf(r[i]), KeyOf(r[j])) {
        assert r[j] == tail[j - 1];
        if i > 0 {
          assert r[i] == tail[i - 1];
        }
      }
    }
  }

  /** The copy into the permanent table is sorted and holds exactly the staged rows. */
  lemma {:induction false} SortByKeySorts(s: seq<Row>)
    ensures SortedByKey(SortByKey(s))
    decreases |s|
  {
    if s != [] {
      SortByKeySorts(s[1..]);
      InsertByKeySorts(s[0], SortByKey(s[1..]));
    }
  }

  lemma {:induction false} SortByKeyPermutes(s: seq<Row>)
    ensures multiset(SortByKey(s)) == multiset(s)
    decreases |s|
  {
    if s != [] {
      var t := SortByKey(s[1..]);
      assert SortByKey(s) == InsertByKey(s[0], t);
      SortByKeyPermutes(s[1..]);
      InsertByKeyPermutes(s[0], t);
      assert s == [s[0]] + s[1..];
      assert multiset(s) == multiset{s[0]} + multiset(s[1..]);
    }
  }

  // ---------------------------------------------------------------------
  // Scenario-scoped views of a table

  /** `DELETE FROM t WHERE scenario_id = sid`: the other rows, in their order. */
  function WithoutScenario(rows: seq<Row>, sid: int): (r: seq<Row>)
    ensures forall x :: x in r <==> x in rows && KeyOf(x).scenarioId != sid
    ensures |r| <= |rows|
    decreases |rows|
  {
    if rows == [] then []
    else if KeyOf(rows[0]).scenarioId == sid then WithoutScenario(rows[1..], sid)
    else [rows[0]] + WithoutScenario(rows[1..], sid)
  }

  /** The rows a query `WHERE scenario_id = sid` sees, in table order. */
  function ScenarioRows(rows: seq<Row>, sid: int): (r: seq<Row>)
    ensures forall x :: x in r <==> x in rows && KeyOf(x).scenarioId == sid
    decreases |rows|
  {
    if rows == [] then []
    else if KeyOf(rows[0]).scenarioId == sid then [rows[0]] + ScenarioRows(rows[1..], sid)
    else ScenarioRows(rows[1..], sid)
  }

  lemma {:induction false} ScenarioRowsAppend(a: seq<Row>, b: seq<Row>, sid: int)
    ensures ScenarioRows(a + b, sid) == ScenarioRows(a, sid) + ScenarioRows(b, sid)
    decreases |a|
  {
    if a == [] {
      assert a + b == b;
    } else {
      assert (a + b)[1..] == a[1..] + b;
      ScenarioRowsAppend(a[1..], b, sid);
      assert (a + b)[0] == a[0];
      if KeyOf(a[0]).scenarioId == sid {
        assert ScenarioRows(a + b, sid) == [a[0]] + ScenarioRows(a[1..] + b, sid);
        ConsAppend(a[0], ScenarioRows(a[1..], sid), ScenarioRows(b, sid));
      } else {
        assert ScenarioRows(a + b, sid) == ScenarioRows(a[1..] + b, sid);
      }
    }
  }

  lemma {:induction false} WithoutScenarioAppend(a: seq<Row>, b: seq<Row>, sid: int)
    ensures WithoutScenario(a + b, sid) == WithoutScenario(a, sid) + WithoutScenario(b, sid)
    decreases |a|
  {
    if a == [] {
      assert a + b == b;
    } else {
      assert (a + b)[1..] == a[1..] + b;
      WithoutScenarioAppend(a[1..], b, sid);
      assert (a + b)[0] == a[0];
      if KeyOf(a[0]).scenarioId != sid {
        assert WithoutScenario(a + b, sid) == [a[0]] + WithoutScenario(a[1..] + b, sid);
        ConsAppend(a[0], WithoutScenario(a[1..], sid), WithoutScenario(b, sid));
      } else {
        assert WithoutScenario(a + b, sid) == WithoutScenario(a[1..] + b, sid);
      }
    }
  }

  lemma ConsAppend(x: Row, s: seq<Row>, t: seq<Row>)
    ensures [x] + (s + t) == ([x] + s) + t
  {
  }

  lemma {:induction false} ScenarioRowsOfOneScenario(rows: seq<Row>, sid: int, other: int)
    requires forall i :: 0 <= i < |rows| ==> KeyOf(rows[i]).scenarioId == sid
    ensures ScenarioRows(rows, sid) == rows
    ensures other != sid ==> ScenarioRows(rows, other) == []
    ensures WithoutScenario(rows, sid) == []
    decreases |rows|
  {
    if rows != [] {
      ScenarioRowsOfOneScenario(rows[1..], sid, other);
      assert rows == [rows[0]] + rows[1..];
    }
  }

  /** Rows of one scenario, all carrying that scenario id. */
  predicate AllOfScenario(rows: seq<Row>, sid: int) {
    forall i :: 0 <= i < |rows| ==> KeyOf(rows[i]).scenarioId == sid
  }

  predicate UniqueKeys(rows: seq<Row>) {
    forall i, j :: 0 <= i < j < |rows| ==> KeyOf(rows[i]) != KeyOf(rows[j])
  }

  function KeysOf(rows: seq<Row>): set<Key> {
    set r | r in rows :: KeyOf(r)
  }

  /**
   * The position, from i on, of the first row whose key an earlier row
   * already has, or |staged| when there is none: where the primary key of
   * the temporary table stops the row-by-row insert.
   */
  function FirstRepeatFrom(staged: seq<Row>, i: nat): (p: nat)
    requires i <= |staged| && UniqueKeys(staged[..i])
    ensures i <= p <= |staged| && UniqueKeys(staged[..p])
    ensures p < |staged| ==> KeyOf(staged[p]) in KeysOf(staged[..p])
    decreases |staged| - i
  {
    if i == |staged| then i
    else if KeyOf(staged[i]) in KeysOf(staged[..i]) then i
    else
      UniqueKeysExtend(staged, i);
      FirstRepeatFrom(staged, i + 1)
  }

  /** The first repeated key's position; |staged| exactly when the keys are unique. */
  function FirstRepeat(staged: seq<Row>): (p: nat)
    ensures p <= |staged| && UniqueKeys(staged[..p])
    ensures p < |staged| ==> KeyOf(staged[p]) in KeysOf(staged[..p])
    ensures p == |staged| <==> UniqueKeys(staged)
  {
    assert staged[..0] == [];
    var p := FirstRepeatFrom(staged, 0);
    if p < |staged| then
      DuplicateBreaksUniqueness(staged, p);
      p
    else
      assert staged[..p] == staged;
      p
  }

  /** A position with a unique prefix and a repeated key is the first repeat. */
  lemma FirstRepeatIsFirst(staged: seq<Row>, p: nat)
    requires p < |staged| && UniqueKeys(staged[..p]) && KeyOf(staged[p]) in KeysOf(staged[..p])
    ensures p == FirstRepeat(staged)
  {
    var q := FirstRepeat(staged);
    if q < p {
      assert staged[..p][..q] == staged[..q];
      DuplicateBreaksUniqueness(staged[..p], q);
    } else if p < q {
      assert staged[..q][..p] == staged[..p];
      DuplicateBreaksUniqueness(staged[..q], p);
    }
  }

  /**
   * The temporary tables after an import of `staged` for scenario `sid`:
   * the scenario's temporary table is dropped when the keys are unique;
   * otherwise it is left behind, holding the rows before the first repeat.
   */
  function TempsAfterImport(temps: map<int, seq<Row>>, sid: int, staged: seq<Row>): (t: map<int, seq<Row>>)
    ensures forall other :: other != sid ==> (other in t <==> other in temps)
    ensures forall other :: other != sid && other in t ==> t[other] == temps[other]
    ensures sid in t <==> !UniqueKeys(staged)
    ensures sid in t ==> UniqueKeys(t[sid]) && |t[sid]| < |staged| && t[sid] == staged[..|t[sid]|]
  {
    if UniqueKeys(staged) then temps - {sid} else temps[sid := staged[..FirstRepeat(staged)]]
  }

  /** The permanent table after a successful import of `staged` for scenario `sid`. */
  function AfterImport(rows: seq<Row>, sid: int, staged: seq<Row>): seq<Row> {
    WithoutScenario(rows, sid) + SortByKey(staged)
  }

  lemma SortedRowsOfOneScenario(staged: seq<Row>, sid: int)
    requires AllOfScenario(staged, sid)
    ensures AllOfScenario(SortByKey(staged), sid)
  {
    SortByKeyPermutes(staged);
    var sorted := SortByKey(staged);
    forall i | 0 <= i < |sorted| ensures KeyOf(sorted[i]).scenarioId == sid {
      assert sorted[i] in multiset(staged);
    }
  }

  /** After an import the scenario's rows are exactly the staged batch, in key order. */
  lemma ImportReplacesScenarioRows(rows: seq<Row>, sid: int, staged: seq<Row>)
    requires AllOfScenario(staged, sid)
    ensures ScenarioRows(AfterImport(rows, sid, staged), sid) == SortByKey(staged)
    ensures SortedByKey(ScenarioRows(AfterImport(rows, sid, staged), sid))
  {
    SortedRowsOfOneScenario(staged, sid);
    SortByKeySorts(staged);
    ScenarioRowsAppend(WithoutScenario(rows, sid), SortByKey(staged), sid);
    ScenarioRowsOfOneScenario(SortByKey(staged), sid, sid);
    DeleteEmptiesScenario(rows, sid);
  }

  /** An import for one scenario leaves every other scenario's rows as they were. */
  lemma ImportKeepsOtherScenarios(rows: seq<Row>, sid: int, staged: seq<Row>, other: int)
    requires AllOfScenario(staged, sid) && other != sid
    ensures ScenarioRows(AfterImport(rows, sid, staged), other) == ScenarioRows(rows, other)
  {
    SortedRowsOfOneScenario(staged, sid);
    ScenarioRowsAppend(WithoutScenario(rows, sid), SortByKey(staged), other);
    ScenarioRowsOfOneScenario(SortByKey(staged), sid, other);
    OtherScenarioSurvivesDelete(rows, sid, other);
  }

  lemma {:induction false} DeleteEmptiesScenario(rows: seq<Row>, sid: int)
    ensures ScenarioRows(WithoutScenario(rows, sid), sid) == []
    decreases |rows|
  {
    if rows != [] {
      DeleteEmptiesScenario(rows[1..], sid);
    }
  }

  lemma {:induction false} OtherScenarioSurvivesDelete(rows: seq<Row>, sid: int, other: int)
    requires other != sid
    ensures ScenarioRows(WithoutScenario(rows, sid), other) == ScenarioRows(rows, other)
    decreases |rows|
  {
    if rows != [] {
      OtherScenarioSurvivesDelete(rows[1..], sid, other);
    }
  }

  /** Importing the same batch twice leaves the table as importing it once. */
  lemma ImportIdempotent(rows: seq<Row>, sid: int, staged: seq<Row>)
    requires AllOfScenario(staged, sid)
    ensures AfterImport(AfterImport(rows, sid, staged), sid, staged) == AfterImport(rows, sid, staged)
  {
    SortedRowsOfOneScenario(staged, sid);
    var w := WithoutScenario(rows, sid);
    var sorted := SortByKey(staged);
    ScenarioRowsAppend(w, sorted, sid);
    WithoutScenarioAppend(w, sorted, sid);
    ScenarioRowsOfOneScenario(sorted, sid, sid);
    WithoutScenarioIdempotent(rows, sid);
    assert WithoutScenario(w + sorted, sid) == w;
    assert AfterImport(w + sorted, sid, staged) == WithoutScenario(w + sorted, sid) + sorted;
  }

  lemma {:induction false} WithoutScenarioIdempotent(rows: seq<Row>, sid: int)
    ensures WithoutScenario(WithoutScenario(rows, sid), sid) == WithoutScenario(rows, sid)
    decreases |rows|
  {
    if rows != [] {
      WithoutScenarioIdempotent(rows[1..], sid);
    }
  }

  // ---------------------------------------------------------------------
  // The table as mutable state

  datatype StagingError = DuplicateKey(position: nat)

  /**
   * One permanent result table together with the temporary tables staged
   * for it; `temps[sid]` is the temporary table whose name is suffixed with
   * scenario id `sid`.
   */
  class ResultTable {
    var rows: seq<Row>
    var temps: map<int, seq<Row>>

    constructor (initial: seq<Row>)
      ensures rows == initial && temps == map[]
    {
      rows := initial;
      temps := map[];
    }

    /** `DELETE FROM t WHERE scenario_id = sid`, committed at once. */
    method DeleteScenario(sid: int)
      modifies this
      ensures rows == WithoutScenario(old(rows), sid) && temps == old(temps)
    {
      rows := WithoutScenario(rows, sid);
    }

    /** `DROP TABLE IF EXISTS temp_t<sid>`. */
    method DropTempIfExists(sid: int)
      modifies this
      ensures temps == old(temps) - {sid} && rows == old(rows)
    {
      temps := temps - {sid};
    }

    /** `CREATE TABLE temp_t<sid>(... PRIMARY KEY (scenario_id, project, timepoint))`. */
    method CreateTemp(sid: int)
      requires sid !in temps
      modifies this
      ensures temps == old(temps)[sid := []] && rows == old(rows)
    {
      temps := temps[sid := []];
    }

    /** One `INSERT INTO temp_t<sid>`; the primary key rejects a repeated key. */
    method InsertTemp(sid: int, row: Row) returns (inserted: bool)
      requires sid in temps
      modifies this
      ensures inserted <==> KeyOf(row) !in KeysOf(old(temps[sid]))
      ensures temps == if inserted then old(temps)[sid := old(temps[sid]) + [row]] else old(temps)
      ensures rows == old(rows)
    {
      inserted := KeyOf(row) !in KeysOf(temps[sid]);
      if inserted {
        temps := temps[sid := temps[sid] + [row]];
      }
    }

    /** `INSERT INTO t SELECT ... FROM temp_t<sid> ORDER BY scenario_id, project, timepoint`. */
    method CopySortedToPermanent(sid: int)
      requires sid in temps
      modifies this
      ensures rows == old(rows) + SortByKey(old(temps[sid])) && temps == old(temps)
    {
      rows := rows + SortByKey(temps[sid]);
    }

    /** `DROP TABLE temp_t<sid>`. */
    method DropTemp(sid: int)
      requires sid in temps
      modifies this
      ensures temps == old(temps) - {sid} && rows == old(rows)
    {
      temps := temps - {sid};
    }

    /**
     * The whole staged import of one scenario's rows. The delete is
     * committed first, so a repeated key aborts the import after the
     * scenario's old rows are gone and leaves the temporary table behind,
     * holding the rows inserted before the failing one.
     */
    method ImportScenario(sid: int, staged: seq<Row>) returns (outcome: Outcome<StagingError>)
      requires AllOfScenario(staged, sid)
      modifies this
      ensures outcome.Pass? <==> UniqueKeys(staged)
      ensures outcome.Pass? ==> rows == AfterImport(old(rows), sid, staged) && temps == old(temps) - {sid}
      ensures temps == TempsAfterImport(old(temps), sid, staged)
      ensures outcome.Fail? ==> outcome.error.position == FirstRepeat(staged)
      ensures outcome.Fail? ==>
        && rows == WithoutScenario(old(rows), sid)
        && outcome.error.position < |staged|
        && UniqueKeys(staged[..outcome.error.position])
        && KeyOf(staged[outcome.error.position]) in KeysOf(staged[..outcome.error.position])
        && temps == old(temps)[sid := staged[..outcome.error.position]]
    {
      ghost var before := temps;
      DeleteScenario(sid);
      DropTempIfExists(sid);
      CreateTemp(sid);
      ghost var created := temps;
      outcome := InsertAllIntoTemp(sid, staged);
      if outcome.Pass? {
        CopySortedToPermanent(sid);
        DropTemp(sid);
        RecreatedTempDropped(before, created, sid, staged);
      } else {
        RecreatedTempFilled(before, created, sid, staged[..outcome.error.position]);
        FirstRepeatIsFirst(staged, outcome.error.position);
      }
    }

    /**
     * The row-by-row `INSERT INTO temp_t<sid>` loop, into an empty
     * temporary table; it stops at the first row whose key is already there.
     */
    method InsertAllIntoTemp(sid: int, staged: seq<Row>) returns (outcome: Outcome<StagingError>)
      requires sid in temps && temps[sid] == []
      modifies this
      ensures rows == old(rows)
      ensures outcome.Pass? <==> UniqueKeys(staged)
      ensures outcome.Pass? ==> temps == old(temps)[sid := staged]
      ensures outcome.Fail? ==>
        && outcome.error.position < |staged|
        && UniqueKeys(staged[..outcome.error.position])
        && KeyOf(staged[outcome.error.position]) in KeysOf(staged[..outcome.error.position])
        && temps == old(temps)[sid := staged[..outcome.error.position]]
    {
      var i := 0;
      while i < |staged|
        invariant 0 <= i <= |staged|
        invariant rows == old(rows)
        invariant temps == old(temps)[sid := staged[..i]]
        invariant UniqueKeys(staged[..i])
        decreases |staged| - i
      {
        var inserted := InsertTemp(sid, staged[i]);
        if !inserted {
          outcome := Fail(DuplicateKey(i));
          DuplicateBreaksUniqueness(staged, i);
          return;
        }
        assert staged[..i + 1] == staged[..i] + [staged[i]];
        UniqueKeysExtend(staged, i);
        i := i + 1;
      }
      assert staged[..i] == staged;
      outcome := Pass;
    }
  }

  /** Dropping, recreating and filling a temporary table only replaces its entry. */
  lemma RecreatedTempFilled(before: map<int, seq<Row>>, created: map<int, seq<Row>>, sid: int, filled: seq<Row>)
    requires created == (before - {sid})[sid := []]
    ensures created[sid := filled] == before[sid := filled]
  {
  }

  /** Dropping the temporary table again leaves the other temporary tables as they were. */
  lemma RecreatedTempDropped(before: map<int, seq<Row>>, created: map<int, seq<Row>>, sid: int, filled: seq<Row>)
    requires created == (before - {sid})[sid := []]
    ensures created[sid := filled] - {sid} == before - {sid}
  {
  }

  lemma UniqueKeysExtend(staged: seq<Row>, i: nat)
    requires i < |staged| && UniqueKeys(staged[..i]) && KeyOf(staged[i]) !in KeysOf(staged[..i])
    ensures UniqueKeys(staged[..i + 1])
  {
    var p := staged[..i + 1];
    forall a, b | 0 <= a < b < i + 1
      ensures KeyOf(p[a]) != KeyOf(p[b])
    {
      if b == i {
        assert staged[..i][a] in staged[..i];
      } else {
        assert staged[..i][a] == staged[a] && staged[..i][b] == staged[b];
      }
    }
  }

  lemma DuplicateBreaksUniqueness(staged: seq<Row>, i: nat)
    requires i < |staged| && KeyOf(staged[i]) in KeysOf(staged[..i])
    ensures !UniqueKeys(staged)
  {
    var r :| r in staged[..i] && KeyOf(r) == KeyOf(staged[i]);
    var k :| 0 <= k < i && staged[..i][k] == r;
    assert staged[k] == r;
  }

  /** A failed import leaves the scenario with no permanent rows and other scenarios untouched. */
  lemma FailedImportEmptiesScenario(rows: seq<Row>, sid: int, other: int)
    requires other != sid
    ensures ScenarioRows(WithoutScenario(rows, sid), sid) == []
    ensures ScenarioRows(WithoutScenario(rows, sid), other) == ScenarioRows(rows, other)
  {
    DeleteEmptiesScenario(rows, sid);
    OtherScenarioSurvivesDelete(rows, sid, other);
  }
}
