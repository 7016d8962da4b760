/** What Alembic's schema operations do to a MySQL database: tables with
    their columns, indexes, foreign keys and rows, the operations the
    revisions under alembic/versions call, running a revision's function
    body, and when a downgrade takes an upgrade back. The revisions
    themselves are in module AlembicRevisions. */
module Migrations {
  import opened Common

  // ---------------------------------------------------------------------
  // Schemas
  // ---------------------------------------------------------------------

  datatype ColType = Integer | VarChar(length: nat) | Text | DateTime | Boolean | Json

  /** A column: its type, NULL allowed or not, the server default as SQL
      text, and AUTO_INCREMENT. */
  datatype Column = Column(kind: ColType, nullable: bool, serverDefault: Option<String>, autoIncrement: bool)

  datatype OnDelete = NoAction | Cascade | SetNull
  datatype ForeignKey = ForeignKey(columns: seq<String>, target: String, targetColumns: seq<String>, onDelete: OnDelete)
  datatype Index = Index(columns: seq<String>, unique: bool)

  /** A stored value: NULL or an SQL literal. */
  datatype Value = Null | Lit(text: String)
  type Row = map<String, Value>

  datatype Table = Table(
    columns: map<String, Column>,
    indexes: map<String, Index>,
    foreignKeys: map<String, ForeignKey>,
    rows: seq<Row>)

  /** The database: tables by name. */
  type Schema = map<String, Table>

  /** Every row has a value for exactly the table's columns. */
  ghost predicate TableWF(t: Table) {
    forall r :: r in t.rows ==> r.Keys == t.columns.Keys
  }

  ghost predicate WF(s: Schema) {
    forall n :: n in s ==> TableWF(s[n])
  }

  /** The value a new column gives to existing rows. */
  function DefaultValue(c: Column): Value {
    if c.serverDefault.Some? then Lit(c.serverDefault.value) else Null
  }

  // ---------------------------------------------------------------------
  // Row rewriting
  // ---------------------------------------------------------------------

  function AddKey(rows: seq<Row>, name: String, v: Value): (r: seq<Row>)
    ensures |r| == |rows| && forall i :: 0 <= i < |rows| ==> r[i] == rows[i][name := v]
  {
    seq(|rows|, i requires 0 <= i < |rows| => rows[i][name := v])
  }

  function DropKey(rows: seq<Row>, name: String): (r: seq<Row>)
    ensures |r| == |rows| && forall i :: 0 <= i < |rows| ==> r[i] == rows[i] - {name}
  {
    seq(|rows|, i requires 0 <= i < |rows| => rows[i] - {name})
  }

  function RenameInRow(row: Row, from: String, to: String): Row {
    if from in row then (row - {from})[to := row[from]] else row
  }

  function RenameKey(rows: seq<Row>, from: String, to: String): (r: seq<Row>)
    ensures |r| == |rows| && forall i :: 0 <= i < |rows| ==> r[i] == RenameInRow(rows[i], from, to)
  {
    seq(|rows|, i requires 0 <= i < |rows| => RenameInRow(rows[i], from, to))
  }

  /** `SET c = LOWER(c) WHERE c != LOWER(c)`, comparing exactly: a NULL
      never satisfies the condition. */
  function LowerInRow(row: Row, name: String): Row {
    if name in row && row[name].Lit? && row[name].text != Lower(row[name].text)
    then row[name := Lit(Lower(row[name].text))]
    else row
  }

  function LowerRows(rows: seq<Row>, name: String): (r: seq<Row>)
    ensures |r| == |rows| && forall i :: 0 <= i < |rows| ==> r[i] == LowerInRow(rows[i], name)
  {
    seq(|rows|, i requires 0 <= i < |rows| => LowerInRow(rows[i], name))
  }

  /** The same statement as MySQL evaluates it under its default,
      case-insensitive collation: `c != LOWER(c)` compares the two strings
      ignoring case. */
  function LowerInRowCollated(row: Row, name: String): Row {
    if name in row && row[name].Lit? && Lower(row[name].text) != Lower(Lower(row[name].text))
    then row[name := Lit(Lower(row[name].text))]
    else row
  }

  function LowerRowsCollated(rows: seq<Row>, name: String): (r: seq<Row>)
    ensures |r| == |rows| && forall i :: 0 <= i < |rows| ==> r[i] == LowerInRowCollated(rows[i], name)
  {
    seq(|rows|, i requires 0 <= i < |rows| => LowerInRowCollated(rows[i], name))
  }

  predicate NoNulls(rows: seq<Row>, name: String) {
    forall i :: 0 <= i < |rows| ==> name in rows[i] ==> rows[i][name] != Null
  }

  /** A column a row must be given: NOT NULL, no default, not AUTO_INCREMENT. */
  predicate Required(c: Column) {
    !c.nullable && c.serverDefault.None? && !c.autoIncrement
  }

  /** The row an INSERT stores: the given values, the next id for an
      AUTO_INCREMENT column, and the defaults (or NULL) elsewhere. */
  function FullRow(columns: map<String, Column>, given: Row, nextId: nat): (r: Row)
    ensures r.Keys == columns.Keys
  {
    map c | c in columns ::
      if c in given then given[c]
      else if columns[c].autoIncrement then Lit(NatToString(nextId))
      else DefaultValue(columns[c])
  }

  // ---------------------------------------------------------------------
  // Operations
  // ---------------------------------------------------------------------

  /** The `op.*` calls the revisions make. `LowerColumn` and `InsertRow` are
      the statements their `op.execute` calls run. */
  datatype Op =
    | AddColumn(table: String, name: String, column: Column)
    | DropColumn(table: String, name: String)
    | RenameColumn(table: String, from: String, to: String)
    | SetNullable(table: String, name: String, nullable: bool)
    | CreateIndex(table: String, name: String, index: Index)
    | DropIndex(table: String, name: String)
    | CreateForeignKey(table: String, name: String, fk: ForeignKey)
    | DropForeignKey(table: String, name: String)
    | CreateTable(table: String, columns: map<String, Column>, fks: map<String, ForeignKey>)
    | DropTable(table: String)
    | LowerColumn(table: String, name: String)
    | InsertRow(table: String, given: Row)

  /** One operation, or None where MySQL refuses it (a missing table or
      column, a name already taken, NULLs in a column made NOT NULL, a
      required column left out of an INSERT). */
  function Apply(s: Schema, op: Op): (r: Option<Schema>)
  {
    match op
    case AddColumn(t, c, col) =>
      if t in s && c !in s[t].columns then
        Some(s[t := s[t].(columns := s[t].columns[c := col], rows := AddKey(s[t].rows, c, DefaultValue(col)))])
      else None
    case DropColumn(t, c) =>
      if t in s && c in s[t].columns then
        Some(s[t := s[t].(columns := s[t].columns - {c}, rows := DropKey(s[t].rows, c))])
      else None
    case RenameColumn(t, a, b) =>
      if t in s && a in s[t].columns && b !in s[t].columns then
        Some(s[t := s[t].(columns := (s[t].columns - {a})[b := s[t].columns[a]], rows := RenameKey(s[t].rows, a, b))])
      else None
    case SetNullable(t, c, n) =>
      if t in s && c in s[t].columns && (n || NoNulls(s[t].rows, c)) then
        Some(s[t := s[t].(columns := s[t].columns[c := s[t].columns[c].(nullable := n)])])
      else None
    case CreateIndex(t, n, ix) =>
      if t in s && n !in s[t].indexes then Some(s[t := s[t].(indexes := s[t].indexes[n := ix])]) else None
    case DropIndex(t, n) =>
      if t in s && n in s[t].indexes then Some(s[t := s[t].(indexes := s[t].indexes - {n})]) else None
    case CreateForeignKey(t, n, fk) =>
      if t in s && fk.target in s && n !in s[t].foreignKeys then
        Some(s[t := s[t].(foreignKeys := s[t].foreignKeys[n := fk])])
      else None
    case DropForeignKey(t, n) =>
      if t in s && n in s[t].foreignKeys then Some(s[t := s[t].(foreignKeys := s[t].foreignKeys - {n})]) else None
    case CreateTable(t, cols, fks) =>
      if t !in s then Some(s[t := Table(cols, map[], fks, [])]) else None
    case DropTable(t) =>
      if t in s then Some(s - {t}) else None
    case LowerColumn(t, c) =>
      if t in s && c in s[t].columns then Some(s[t := s[t].(rows := LowerRows(s[t].rows, c))]) else None
    case InsertRow(t, given) =>
      if t in s && given.Keys <= s[t].columns.Keys &&
         forall c :: c in s[t].columns && Required(s[t].columns[c]) ==> c in given
      then Some(s[t := s[t].(rows := s[t].rows + [FullRow(s[t].columns, given, |s[t].rows| + 1)])])
      else None
  }

  /** A revision's function body: the operations in order, stopping at the
      first one `Apply` refuses. `RunMySql` below adds the refusal to drop
      an index a foreign key needs. */
  function Run(s: Schema, ops: seq<Op>): Option<Schema>
    decreases |ops|
  {
    if ops == [] then Some(s)
    else
      match Apply(s, ops[0])
      case None => None
      case Some(s1) => Run(s1, ops[1..])
  }

  /** A body that completes applies its first operation, then the rest. */
  lemma RunStep(s: Schema, ops: seq<Op>)
    requires ops != [] && Run(s, ops).Some?
    ensures Apply(s, ops[0]).Some? && Run(s, ops) == Run(Apply(s, ops[0]).value, ops[1..])
  {
  }

  lemma {:induction false} RunAppend(s: Schema, a: seq<Op>, b: seq<Op>)
    ensures Run(s, a + b) == (match Run(s, a) case None => None case Some(t) => Run(t, b))
    decreases |a|
  {
    if a == [] {
      assert a + b == b;
    } else {
      assert (a + b)[0] == a[0];
      assert (a + b)[1..] == a[1..] + b;
      match Apply(s, a[0])
      case None =>
      case Some(s1) => RunAppend(s1, a[1..], b);
    }
  }

  lemma WFUpdate(s: Schema, n: String, t: Table)
    requires WF(s) && TableWF(t)
    ensures WF(s[n := t])
  {
  }

  /** A table whose rows are rewritten row by row keeps its shape when each
      rewritten row has the new column set. */
  lemma RowsFit(rows: seq<Row>, rows2: seq<Row>, keys: set<String>)
    requires |rows2| == |rows|
    requires forall i :: 0 <= i < |rows| ==> rows2[i].Keys == keys
    ensures forall r :: r in rows2 ==> r.Keys == keys
  {
  }

  lemma AddColumnKeepsWF(s: Schema, t: String, c: String, col: Column)
    requires WF(s) && Apply(s, AddColumn(t, c, col)).Some?
    ensures WF(Apply(s, AddColumn(t, c, col)).value)
  {
    var tb := s[t];
    var rows := AddKey(tb.rows, c, DefaultValue(col));
    forall i | 0 <= i < |tb.rows| ensures rows[i].Keys == tb.columns[c := col].Keys {
      assert tb.rows[i] in tb.rows;
    }
    RowsFit(tb.rows, rows, tb.columns[c := col].Keys);
    WFUpdate(s, t, tb.(columns := tb.columns[c := col], rows := rows));
  }

  lemma DropColumnKeepsWF(s: Schema, t: String, c: String)
    requires WF(s) && Apply(s, DropColumn(t, c)).Some?
    ensures WF(Apply(s, DropColumn(t, c)).value)
  {
    var tb := s[t];
    var rows := DropKey(tb.rows, c);
    forall i | 0 <= i < |tb.rows| ensures rows[i].Keys == (tb.columns - {c}).Keys {
      assert tb.rows[i] in tb.rows;
    }
    RowsFit(tb.rows, rows, (tb.columns - {c}).Keys);
    WFUpdate(s, t, tb.(columns := tb.columns - {c}, rows := rows));
  }

  lemma RenameColumnKeepsWF(s: Schema, t: String, a: String, b: String)
    requires WF(s) && Apply(s, RenameColumn(t, a, b)).Some?
    ensures WF(Apply(s, RenameColumn(t, a, b)).value)
  {
    var tb := s[t];
    var cols := (tb.columns - {a})[b := tb.columns[a]];
    var rows := RenameKey(tb.rows, a, b);
    forall i | 0 <= i < |tb.rows| ensures rows[i].Keys == cols.Keys {
      assert tb.rows[i] in tb.rows;
    }
    RowsFit(tb.rows, rows, cols.Keys);
    WFUpdate(s, t, tb.(columns := cols, rows := rows));
  }

  lemma LowerColumnKeepsWF(s: Schema, t: String, c: String)
    requires WF(s) && Apply(s, LowerColumn(t, c)).Some?
    ensures WF(Apply(s, LowerColumn(t, c)).value)
  {
    var tb := s[t];
    var rows := LowerRows(tb.rows, c);
    forall i | 0 <= i < |tb.rows| ensures rows[i].Keys == tb.columns.Keys {
      assert tb.rows[i] in tb.rows;
    }
    RowsFit(tb.rows, rows, tb.columns.Keys);
    WFUpdate(s, t, tb.(rows := rows));
  }

  lemma InsertRowKeepsWF(s: Schema, t: String, given: Row)
    requires WF(s) && Apply(s, InsertRow(t, given)).Some?
    ensures WF(Apply(s, InsertRow(t, given)).value)
  {
    var tb := s[t];
    var row := FullRow(tb.columns, given, |tb.rows| + 1);
    var rows := tb.rows + [row];
    forall r | r in rows ensures r.Keys == tb.columns.Keys {
      if r !in tb.rows {
        assert r == row;
      }
    }
    WFUpdate(s, t, tb.(rows := rows));
  }

  /** No operation leaves a row without a value for a column, or with a
      value for a column the table lacks. */
  lemma ApplyKeepsWF(s: Schema, op: Op)
    requires WF(s) && Apply(s, op).Some?
    ensures WF(Apply(s, op).value)
  {
    match op
    case AddColumn(t, c, col) => AddColumnKeepsWF(s, t, c, col);
    case DropColumn(t, c) => DropColumnKeepsWF(s, t, c);
    case RenameColumn(t, a, b) => RenameColumnKeepsWF(s, t, a, b);
    case SetNullable(t, c, n) =>
      WFUpdate(s, t, s[t].(columns := s[t].columns[c := s[t].columns[c].(nullable := n)]));
    case CreateIndex(t, n, ix) =>
      WFUpdate(s, t, s[t].(indexes := s[t].indexes[n := ix]));
    case DropIndex(t, n) =>
      WFUpdate(s, t, s[t].(indexes := s[t].indexes - {n}));
    case CreateForeignKey(t, n, fk) =>
      WFUpdate(s, t, s[t].(foreignKeys := s[t].foreignKeys[n := fk]));
    case DropForeignKey(t, n) =>
      WFUpdate(s, t, s[t].(foreignKeys := s[t].foreignKeys - {n}));
    case CreateTable(t, cols, fks) =>
      WFUpdate(s, t, Table(cols, map[], fks, []));
    case DropTable(t) =>
    case LowerColumn(t, c) => LowerColumnKeepsWF(s, t, c);
    case InsertRow(t, given) => InsertRowKeepsWF(s, t, given);
  }

  // ---------------------------------------------------------------------
  // Undoing operations
  // ---------------------------------------------------------------------

  /** The operation that takes back `op`, where there is one. */
  function Inverse(op: Op): Option<Op> {
    match op
    case AddColumn(t, c, _) => Some(DropColumn(t, c))
    case RenameColumn(t, a, b) => Some(RenameColumn(t, b, a))
    case CreateIndex(t, n, _) => Some(DropIndex(t, n))
    case CreateForeignKey(t, n, _) => Some(DropForeignKey(t, n))
    case CreateTable(t, _, _) => Some(DropTable(t))
    case _ => None
  }

  /** The downgrade that takes back `ups`: each inverse, last first. */
  function Undo(ups: seq<Op>): Option<seq<Op>>
    decreases |ups|
  {
    if ups == [] then Some([])
    else
      match (Inverse(ups[0]), Undo(ups[1..]))
      case (Some(i), Some(rest)) => Some(rest + [i])
      case _ => None
  }

  lemma RowWithoutKey(row: Row, c: String, v: Value)
    requires c !in row
    ensures row[c := v] - {c} == row
  {
  }

  lemma RenameBack(row: Row, a: String, b: String)
    requires a in row && b !in row
    ensures RenameInRow(RenameInRow(row, a, b), b, a) == row
  {
    var r1 := RenameInRow(row, a, b);
    assert b in r1 && a !in r1;
    assert (r1 - {b})[a := r1[b]] == row;
  }

  lemma DropAddedColumn(tb: Table, c: String, col: Column)
    requires TableWF(tb) && c !in tb.columns
    ensures tb.(columns := tb.columns[c := col], rows := AddKey(tb.rows, c, DefaultValue(col)))
              .(columns := tb.columns[c := col] - {c}, rows := DropKey(AddKey(tb.rows, c, DefaultValue(col)), c)) == tb
  {
    var back := DropKey(AddKey(tb.rows, c, DefaultValue(col)), c);
    forall i | 0 <= i < |tb.rows| ensures back[i] == tb.rows[i] {
      assert tb.rows[i] in tb.rows;
      RowWithoutKey(tb.rows[i], c, DefaultValue(col));
    }
    assert back == tb.rows;
    assert tb.columns[c := col] - {c} == tb.columns;
  }

  lemma RenameColumnBack(tb: Table, a: String, b: String)
    requires TableWF(tb) && a in tb.columns && b !in tb.columns
    ensures var cols1 := (tb.columns - {a})[b := tb.columns[a]];
      (cols1 - {b})[a := cols1[b]] == tb.columns &&
      RenameKey(RenameKey(tb.rows, a, b), b, a) == tb.rows
  {
    var back := RenameKey(RenameKey(tb.rows, a, b), b, a);
    forall i | 0 <= i < |tb.rows| ensures back[i] == tb.rows[i] {
      assert tb.rows[i] in tb.rows;
      RenameBack(tb.rows[i], a, b);
    }
    var cols1 := (tb.columns - {a})[b := tb.columns[a]];
    assert (cols1 - {b})[a := cols1[b]] == tb.columns;
  }

  lemma PutBack(s: Schema, t: String, tb: Table)
    requires t in s && s[t] == tb
    ensures s[t := tb] == s
  {
  }

  lemma AddColumnUndone(s: Schema, t: String, c: String, col: Column)
    requires WF(s) && Apply(s, AddColumn(t, c, col)).Some?
    ensures Apply(Apply(s, AddColumn(t, c, col)).value, DropColumn(t, c)) == Some(s)
  {
    var tb := s[t];
    var tb1 := tb.(columns := tb.columns[c := col], rows := AddKey(tb.rows, c, DefaultValue(col)));
    var s1 := s[t := tb1];
    assert Apply(s, AddColumn(t, c, col)) == Some(s1);
    assert c in tb1.columns;
    DropAddedColumn(tb, c, col);
    assert s1[t := tb] == s;
  }

  lemma RenameColumnUndone(s: Schema, t: String, a: String, b: String)
    requires WF(s) && Apply(s, RenameColumn(t, a, b)).Some?
    ensures Apply(Apply(s, RenameColumn(t, a, b)).value, RenameColumn(t, b, a)) == Some(s)
  {
    var tb := s[t];
    var cols1 := (tb.columns - {a})[b := tb.columns[a]];
    var tb1 := tb.(columns := cols1, rows := RenameKey(tb.rows, a, b));
    var s1 := s[t := tb1];
    assert Apply(s, RenameColumn(t, a, b)) == Some(s1);
    assert b in cols1 && a !in cols1;
    RenameColumnBack(tb, a, b);
    var tb2 := tb1.(columns := (cols1 - {b})[a := cols1[b]], rows := RenameKey(tb1.rows, b, a));
    assert tb2 == tb;
    assert s1[t := tb2] == s;
  }

  lemma CreateIndexUndone(s: Schema, t: String, n: String, ix: Index)
    requires Apply(s, CreateIndex(t, n, ix)).Some?
    ensures Apply(Apply(s, CreateIndex(t, n, ix)).value, DropIndex(t, n)) == Some(s)
  {
    var tb := s[t];
    var tb1 := tb.(indexes := tb.indexes[n := ix]);
    var s1 := s[t := tb1];
    assert Apply(s, CreateIndex(t, n, ix)) == Some(s1);
    assert n in tb1.indexes;
    assert tb1.(indexes := tb1.indexes - {n}) == tb;
    assert s1[t := tb] == s;
  }

  lemma CreateForeignKeyUndone(s: Schema, t: String, n: String, fk: ForeignKey)
    requires Apply(s, CreateForeignKey(t, n, fk)).Some?
    ensures Apply(Apply(s, CreateForeignKey(t, n, fk)).value, DropForeignKey(t, n)) == Some(s)
  {
    var tb := s[t];
    var tb1 := tb.(foreignKeys := tb.foreignKeys[n := fk]);
    var s1 := s[t := tb1];
    assert Apply(s, CreateForeignKey(t, n, fk)) == Some(s1);
    assert n in tb1.foreignKeys;
    assert tb1.(foreignKeys := tb1.foreignKeys - {n}) == tb;
    assert s1[t := tb] == s;
  }

  lemma CreateTableUndone(s: Schema, t: String, cols: map<String, Column>, fks: map<String, ForeignKey>)
    requires Apply(s, CreateTable(t, cols, fks)).Some?
    ensures Apply(Apply(s, CreateTable(t, cols, fks)).value, DropTable(t)) == Some(s)
  {
    assert s[t := Table(cols, map[], fks, [])] - {t} == s;
  }

  /** Each invertible operation is taken back by its inverse. */
  lemma InverseUndoes(s: Schema, op: Op)
    requires WF(s) && Apply(s, op).Some? && Inverse(op).Some?
    ensures Apply(Apply(s, op).value, Inverse(op).value) == Some(s)
  {
    match op
    case AddColumn(t, c, col) => AddColumnUndone(s, t, c, col);
    case RenameColumn(t, a, b) => RenameColumnUndone(s, t, a, b);
    case CreateIndex(t, n, ix) => CreateIndexUndone(s, t, n, ix);
    case CreateForeignKey(t, n, fk) => CreateForeignKeyUndone(s, t, n, fk);
    case CreateTable(t, cols, fks) => CreateTableUndone(s, t, cols, fks);
  }

  /** A downgrade made of the upgrade's inverses, last first, restores the
      schema the upgrade started from: tables, columns, indexes, foreign
      keys and rows. */
  lemma {:induction false} UndoRestores(s: Schema, ups: seq<Op>)
    requires WF(s) && Run(s, ups).Some? && Undo(ups).Some?
    ensures Run(Run(s, ups).value, Undo(ups).value) == Some(s)
    decreases |ups|
  {
    if ups != [] {
      var s1 := Apply(s, ups[0]).value;
      ApplyKeepsWF(s, ups[0]);
      UndoRestores(s1, ups[1..]);
      var rest := Undo(ups[1..]).value;
      var inv := Inverse(ups[0]).value;
      RunAppend(Run(s, ups).value, rest, [inv]);
      InverseUndoes(s, ups[0]);
      assert Run(s1, [inv]) == Apply(s1, inv);
    }
  }

  /** A downgrade written as the upgrade's inverses, last first, position
      by position. */
  predicate Mirrors(ups: seq<Op>, downs: seq<Op>) {
    |ups| == |downs| &&
    forall i :: 0 <= i < |ups| ==> Inverse(ups[i]) == Some(downs[|ups| - 1 - i])
  }

  lemma {:induction false} MirrorsUndo(ups: seq<Op>, downs: seq<Op>)
    requires Mirrors(ups, downs)
    ensures Undo(ups) == Some(downs)
    decreases |ups|
  {
    if ups != [] {
      var k := |downs| - 1;
      assert Mirrors(ups[1..], downs[..k]) by {
        forall i | 0 <= i < |ups[1..]| ensures Inverse(ups[1..][i]) == Some(downs[..k][|ups[1..]| - 1 - i]) {
          assert ups[1..][i] == ups[i + 1];
        }
      }
      MirrorsUndo(ups[1..], downs[..k]);
      assert Inverse(ups[0]) == Some(downs[k]);
      assert downs[..k] + [downs[k]] == downs;
    }
  }

  /** A revision whose downgrade mirrors its upgrade restores, after a
      successful upgrade, the schema the upgrade started from. */
  lemma MirroredRoundTrip(s: Schema, ups: seq<Op>, downs: seq<Op>)
    requires WF(s) && Mirrors(ups, downs) && Run(s, ups).Some?
    ensures Run(Run(s, ups).value, downs) == Some(s)
  {
    MirrorsUndo(ups, downs);
    UndoRestores(s, ups);
  }

  lemma RunSingle(s: Schema, op: Op)
    ensures Run(s, [op]) == Apply(s, op)
  {
    assert [op][1..] == [];
  }

  // ---------------------------------------------------------------------
  // Operations that leave one table's rows alone
  // ---------------------------------------------------------------------

  /** `op` does not change the columns or rows of table `t`. */
  predicate KeepsRows(op: Op, t: String) {
    op.table != t || op.CreateIndex? || op.DropIndex? || op.CreateForeignKey? || op.DropForeignKey?
  }

  lemma ApplyKeepsRows(s: Schema, op: Op, t: String)
    requires t in s && KeepsRows(op, t) && Apply(s, op).Some?
    ensures t in Apply(s, op).value && Apply(s, op).value[t].rows == s[t].rows
    ensures Apply(s, op).value[t].columns == s[t].columns
  {
  }

  lemma {:induction false} RunKeepsRows(s: Schema, ops: seq<Op>, t: String)
    requires t in s && Run(s, ops).Some?
    requires forall i :: 0 <= i < |ops| ==> KeepsRows(ops[i], t)
    ensures t in Run(s, ops).value && Run(s, ops).value[t].rows == s[t].rows
    ensures Run(s, ops).value[t].columns == s[t].columns
    decreases |ops|
  {
    if ops != [] {
      assert KeepsRows(ops[0], t);
      ApplyKeepsRows(s, ops[0], t);
      var s1 := Apply(s, ops[0]).value;
      assert forall i :: 0 <= i < |ops[1..]| ==> KeepsRows(ops[1..][i], t) by {
        forall i | 0 <= i < |ops[1..]| ensures KeepsRows(ops[1..][i], t) {
          assert ops[1..][i] == ops[i + 1];
        }
      }
      RunKeepsRows(s1, ops[1..], t);
    }
  }

  /** The two schemas agree everywhere except, perhaps, in the rows of `t`. */
  ghost predicate SameBut(s: Schema, s2: Schema, t: String) {
    s.Keys == s2.Keys &&
    (forall n :: n in s && n != t ==> s[n] == s2[n]) &&
    (t in s ==> s[t].(rows := []) == s2[t].(rows := []))
  }

  /** An operation that only drops an index or a table. */
  predicate Dropping(op: Op) {
    op.DropIndex? || op.DropTable?
  }

  lemma DropIndexSameBut(s: Schema, s2: Schema, t: String, u: String, n: String)
    requires SameBut(s, s2, t)
    ensures Apply(s, DropIndex(u, n)).Some? <==> Apply(s2, DropIndex(u, n)).Some?
    ensures Apply(s, DropIndex(u, n)).Some? ==> SameBut(Apply(s, DropIndex(u, n)).value, Apply(s2, DropIndex(u, n)).value, t)
  {
    if u in s {
      assert s[u].indexes == s2[u].indexes by {
        if u == t {
          assert s[t].(rows := []).indexes == s2[t].(rows := []).indexes;
        }
      }
    }
  }

  lemma DropTableSameBut(s: Schema, s2: Schema, t: String, u: String)
    requires SameBut(s, s2, t)
    ensures Apply(s, DropTable(u)).Some? <==> Apply(s2, DropTable(u)).Some?
    ensures Apply(s, DropTable(u)).Some? ==> SameBut(Apply(s, DropTable(u)).value, Apply(s2, DropTable(u)).value, t)
  {
  }

  lemma ApplySameBut(s: Schema, s2: Schema, t: String, op: Op)
    requires SameBut(s, s2, t) && Dropping(op)
    ensures Apply(s, op).Some? <==> Apply(s2, op).Some?
    ensures Apply(s, op).Some? ==> SameBut(Apply(s, op).value, Apply(s2, op).value, t)
  {
    match op
    case DropIndex(u, n) => DropIndexSameBut(s, s2, t, u, n);
    case DropTable(u) => DropTableSameBut(s, s2, t, u);
  }

  lemma {:induction false} RunSameBut(s: Schema, s2: Schema, t: String, ops: seq<Op>)
    requires SameBut(s, s2, t)
    requires forall i :: 0 <= i < |ops| ==> Dropping(ops[i])
    ensures Run(s, ops).Some? <==> Run(s2, ops).Some?
    ensures Run(s, ops).Some? ==> SameBut(Run(s, ops).value, Run(s2, ops).value, t)
    decreases |ops|
  {
    if ops != [] {
      assert Dropping(ops[0]);
      ApplySameBut(s, s2, t, ops[0]);
      if Apply(s, ops[0]).Some? {
        assert forall i :: 0 <= i < |ops[1..]| ==> Dropping(ops[1..][i]) by {
          forall i | 0 <= i < |ops[1..]| ensures Dropping(ops[1..][i]) {
            assert ops[1..][i] == ops[i + 1];
          }
        }
        RunSameBut(Apply(s, ops[0]).value, Apply(s2, ops[0]).value, t, ops[1..]);
      }
    }
  }

  /** An INSERT appends the full row to its table. */
  lemma InsertAppends(s: Schema, t: String, given: Row)
    requires Apply(s, InsertRow(t, given)).Some?
    ensures t in Apply(s, InsertRow(t, given)).value
    ensures Apply(s, InsertRow(t, given)).value[t].rows == s[t].rows + [FullRow(s[t].columns, given, |s[t].rows| + 1)]
  {
  }

  /** An INSERT changes nothing but the rows of its table. */
  lemma InsertSameBut(s: Schema, t: String, given: Row)
    requires Apply(s, InsertRow(t, given)).Some?
    ensures SameBut(s, Apply(s, InsertRow(t, given)).value, t)
  {
  }

  /** Schemas that differ only in a table neither holds are equal. */
  lemma SameButAbsent(s: Schema, s2: Schema, t: String)
    requires SameBut(s, s2, t) && t !in s
    ensures s == s2
  {
  }

  // ---------------------------------------------------------------------
  // Lower-casing a column
  // ---------------------------------------------------------------------

  /** Every value stored in column `c` is already in lower case. */
  ghost predicate Lowered(tb: Table, c: String) {
    forall i :: 0 <= i < |tb.rows| && c in tb.rows[i] && tb.rows[i][c].Lit? ==>
      Lower(tb.rows[i][c].text) == tb.rows[i][c].text
  }

  lemma LowerRowsLowers(rows: seq<Row>, c: String)
    ensures Lowered(Table(map[], map[], map[], LowerRows(rows, c)), c)
  {
    var r: seq<Row> := LowerRows(rows, c);
    forall i | 0 <= i < |r| && c in r[i] && r[i][c].Lit?
      ensures Lower(r[i][c].text) == r[i][c].text
    {
      LowerIsLowered(rows[i][c].text);
    }
  }

  lemma LowerRowsKeepsLowered(tb: Table, c: String, d: String)
    requires Lowered(tb, c)
    ensures Lowered(tb.(rows := LowerRows(tb.rows, d)), c)
  {
    var r: seq<Row> := LowerRows(tb.rows, d);
    forall i | 0 <= i < |r| && c in r[i] && r[i][c].Lit?
      ensures Lower(r[i][c].text) == r[i][c].text
    {
      if c == d && c in tb.rows[i] && tb.rows[i][c].Lit? {
        LowerIsLowered(tb.rows[i][c].text);
      }
    }
  }

  /** On a column whose values are all lower case the update changes nothing. */
  lemma LowerRowsIdle(tb: Table, c: String)
    requires Lowered(tb, c)
    ensures LowerRows(tb.rows, c) == tb.rows
  {
    var r: seq<Row> := LowerRows(tb.rows, c);
    forall i | 0 <= i < |r| ensures r[i] == tb.rows[i] {
    }
  }

  /** Under a case-insensitive collation the WHERE clause never holds, so
      the update leaves every row as it was. */
  lemma CollatedLowerChangesNothing(rows: seq<Row>, c: String)
    ensures LowerRowsCollated(rows, c) == rows
  {
    var r := LowerRowsCollated(rows, c);
    forall i | 0 <= i < |rows| ensures r[i] == rows[i] {
      if c in rows[i] && rows[i][c].Lit? {
        LowerIsLowered(rows[i][c].text);
      }
    }
  }

  /** A stored "ADMIN" stays upper case under the collated comparison, and
      becomes "admin" when the comparison is exact. */
  lemma CollationKeepsUpperCase()
    ensures LowerInRowCollated(map["role" := Lit("ADMIN")], "role") == map["role" := Lit("ADMIN")]
    ensures LowerInRow(map["role" := Lit("ADMIN")], "role") == map["role" := Lit("admin")]
  {
    assert Lower("ADMIN") == "admin";
    LowerIsLowered("ADMIN");
  }

  /** Every operation is a `LowerColumn`. */
  predicate AllLowering(ops: seq<Op>) {
    forall i :: 0 <= i < |ops| ==> ops[i].LowerColumn?
  }

  ghost predicate LoweredAt(s: Schema, t: String, c: String) {
    t in s && Lowered(s[t], c)
  }

  lemma ApplyLowerKeepsLowered(s: Schema, op: Op, t: String, c: String)
    requires op.LowerColumn? && LoweredAt(s, t, c) && Apply(s, op).Some?
    ensures LoweredAt(Apply(s, op).value, t, c)
  {
    if op.table == t {
      LowerRowsKeepsLowered(s[t], c, op.name);
    }
  }

  lemma {:induction false} RunLowerKeepsLowered(s: Schema, ops: seq<Op>, t: String, c: String)
    requires AllLowering(ops) && LoweredAt(s, t, c) && Run(s, ops).Some?
    ensures LoweredAt(Run(s, ops).value, t, c)
    decreases |ops|
  {
    if ops != [] {
      assert ops[0].LowerColumn?;
      ApplyLowerKeepsLowered(s, ops[0], t, c);
      assert AllLowering(ops[1..]) by {
        forall i | 0 <= i < |ops[1..]| ensures ops[1..][i].LowerColumn? {
          assert ops[1..][i] == ops[i + 1];
        }
      }
      RunLowerKeepsLowered(Apply(s, ops[0]).value, ops[1..], t, c);
    }
  }

  /** Every column the operations name holds only lower-case values. */
  ghost predicate NamesLowered(s: Schema, ops: seq<Op>) {
    forall i :: 0 <= i < |ops| && ops[i].LowerColumn? ==> LoweredAt(s, ops[i].table, ops[i].name)
  }

  /** After a run of lower-casing updates, every column they name holds
      only lower-case values. */
  lemma {:induction false} RunLowers(s: Schema, ops: seq<Op>)
    requires AllLowering(ops) && Run(s, ops).Some?
    ensures NamesLowered(Run(s, ops).value, ops)
    decreases |ops|
  {
    if ops != [] {
      var op := ops[0];
      assert op.LowerColumn?;
      var s1 := Apply(s, op).value;
      LowerRowsLowers(s[op.table].rows, op.name);
      assert LoweredAt(s1, op.table, op.name);
      assert AllLowering(ops[1..]) by {
        forall i | 0 <= i < |ops[1..]| ensures ops[1..][i].LowerColumn? {
          assert ops[1..][i] == ops[i + 1];
        }
      }
      RunLowers(s1, ops[1..]);
      RunLowerKeepsLowered(s1, ops[1..], op.table, op.name);
      forall i | 0 <= i < |ops| ensures LoweredAt(Run(s, ops).value, ops[i].table, ops[i].name) {
        if i > 0 {
          assert ops[i] == ops[1..][i - 1];
        }
      }
    }
  }

  /** Lower-casing updates change nothing where every column they name is
      already lower case. */
  lemma {:induction false} RunLowerIdle(s: Schema, ops: seq<Op>)
    requires AllLowering(ops) && NamesLowered(s, ops)
    requires forall i :: 0 <= i < |ops| ==> ops[i].table in s && ops[i].name in s[ops[i].table].columns
    ensures Run(s, ops) == Some(s)
    decreases |ops|
  {
    if ops != [] {
      var op := ops[0];
      assert op.LowerColumn? && LoweredAt(s, op.table, op.name) && op.name in s[op.table].columns;
      LowerRowsIdle(s[op.table], op.name);
      assert s[op.table := s[op.table].(rows := s[op.table].rows)] == s;
      assert Apply(s, op) == Some(s);
      assert AllLowering(ops[1..]) by {
        forall i | 0 <= i < |ops[1..]| ensures ops[1..][i].LowerColumn? {
          assert ops[1..][i] == ops[i + 1];
        }
      }
      forall i | 0 <= i < |ops[1..]|
        ensures LoweredAt(s, ops[1..][i].table, ops[1..][i].name) && ops[1..][i].table in s && ops[1..][i].name in s[ops[1..][i].table].columns
      {
        assert ops[1..][i] == ops[i + 1];
      }
      RunLowerIdle(s, ops[1..]);
    }
  }

  /** Lower-casing updates never add or remove a table or column. */
  lemma {:induction false} RunLowerKeepsColumns(s: Schema, ops: seq<Op>)
    requires AllLowering(ops) && Run(s, ops).Some?
    ensures Run(s, ops).value.Keys == s.Keys
    ensures forall n :: n in s ==> Run(s, ops).value[n].columns == s[n].columns
    ensures forall i :: 0 <= i < |ops| ==> ops[i].table in s && ops[i].name in s[ops[i].table].columns
    decreases |ops|
  {
    if ops != [] {
      assert ops[0].LowerColumn?;
      assert AllLowering(ops[1..]) by {
        forall i | 0 <= i < |ops[1..]| ensures ops[1..][i].LowerColumn? {
          assert ops[1..][i] == ops[i + 1];
        }
      }
      RunLowerKeepsColumns(Apply(s, ops[0]).value, ops[1..]);
      forall i | 0 < i < |ops| ensures ops[i].table in s && ops[i].name in s[ops[i].table].columns {
        assert ops[i] == ops[1..][i - 1];
      }
    }
  }

  // ---------------------------------------------------------------------
  // Indexes a foreign key needs (MySQL error 1553)
  // ---------------------------------------------------------------------

  /** An index can enforce a foreign key when the key's columns are its
      leading columns. */
  predicate Serves(ix: Index, fk: ForeignKey) {
    |fk.columns| <= |ix.columns| && ix.columns[..|fk.columns|] == fk.columns
  }

  /** Index `n` is the only index of the table that enforces one of the
      table's foreign keys, so InnoDB refuses to drop it (error 1553).
      MySQL gives a key that has no serving index one of its own, and drops
      that one silently once a created index serves the key; the model
      leaves such implicit indexes out. */
  predicate NeededByForeignKey(tb: Table, n: String) {
    n in tb.indexes &&
    exists f :: f in tb.foreignKeys && Serves(tb.indexes[n], tb.foreignKeys[f]) &&
      forall m :: m in tb.indexes && m != n ==> !Serves(tb.indexes[m], tb.foreignKeys[f])
  }

  /** One operation as MySQL runs it: `Apply`, and in addition an index a
      foreign key needs cannot be dropped. */
  function ApplyMySql(s: Schema, op: Op): (r: Option<Schema>)
    ensures r.Some? ==> r == Apply(s, op)
    ensures r.None? <==> Apply(s, op).None? || (op.DropIndex? && op.table in s && NeededByForeignKey(s[op.table], op.name))
  {
    if op.DropIndex? && op.table in s && NeededByForeignKey(s[op.table], op.name) then None else Apply(s, op)
  }

  /** A function body as MySQL runs it, stopping at the first refusal.
      Whatever it completes, `Run` completes with the same schema. */
  function RunMySql(s: Schema, ops: seq<Op>): (r: Option<Schema>)
    ensures r.Some? ==> r == Run(s, ops)
    ensures (forall i :: 0 <= i < |ops| ==> !ops[i].DropIndex?) ==> r == Run(s, ops)
    decreases |ops|
  {
    if ops == [] then Some(s)
    else
      assert forall i :: 0 <= i < |ops[1..]| ==> ops[1..][i] == ops[i + 1];
      match ApplyMySql(s, ops[0])
      case None => None
      case Some(s1) => RunMySql(s1, ops[1..])
  }

  /** MySQL runs a body one operation at a time. */
  lemma RunMySqlStep(s: Schema, ops: seq<Op>)
    requires ops != []
    ensures RunMySql(s, ops) == (match ApplyMySql(s, ops[0]) case None => None case Some(s1) => RunMySql(s1, ops[1..]))
  {
  }

  /** MySQL drops an index no key needs, and refuses one a key needs. */
  lemma DropIndexMySql(s: Schema, t: String, n: String)
    requires t in s && n in s[t].indexes
    ensures !NeededByForeignKey(s[t], n) ==>
              ApplyMySql(s, DropIndex(t, n)) == Some(s[t := s[t].(indexes := s[t].indexes - {n})])
    ensures NeededByForeignKey(s[t], n) ==> ApplyMySql(s, DropIndex(t, n)).None?
  {
  }

  /** Every index and foreign key of the table names only the table's
      columns, and every foreign key names at least one. */
  ghost predicate KeysNameColumns(tb: Table) {
    (forall n :: n in tb.indexes ==> forall c :: c in tb.indexes[n].columns ==> c in tb.columns) &&
    (forall f :: f in tb.foreignKeys ==>
       tb.foreignKeys[f].columns != [] && forall c :: c in tb.foreignKeys[f].columns ==> c in tb.columns)
  }

  /** An index on a column the table did not have before serves none of
      the foreign keys the table had before. */
  lemma NewColumnServesNoOldKey(tb: Table, c: String, ix: Index, fk: ForeignKey)
    requires c !in tb.columns && |ix.columns| >= 1 && ix.columns[0] == c
    requires fk.columns != [] && forall d :: d in fk.columns ==> d in tb.columns
    ensures !Serves(ix, fk)
  {
    assert fk.columns[0] in fk.columns;
    assert |fk.columns| <= |ix.columns| ==> ix.columns[..|fk.columns|][0] == c;
  }
  /** With the table's old keys all on its old columns, an index whose
      first column is new is needed by none of them. */
  lemma NewColumnIndexFree(before: Table, tb: Table, c: String, n: String)
    requires KeysNameColumns(before) && c !in before.columns
    requires tb.foreignKeys == before.foreignKeys && n in tb.indexes
    requires |tb.indexes[n].columns| >= 1 && tb.indexes[n].columns[0] == c
    ensures !NeededByForeignKey(tb, n)
  {
    forall f | f in tb.foreignKeys ensures !Serves(tb.indexes[n], tb.foreignKeys[f]) {
      NewColumnServesNoOldKey(before, c, tb.indexes[n], before.foreignKeys[f]);
    }
  }

  /** An operation leaves every other table as it was. */
  lemma ApplyElsewhere(s: Schema, op: Op, u: String)
    requires op.table != u && Apply(s, op).Some?
    ensures u in Apply(s, op).value <==> u in s
    ensures u in s ==> Apply(s, op).value[u] == s[u]
  {
  }

  lemma {:induction false} RunElsewhere(s: Schema, ops: seq<Op>, u: String)
    requires forall i :: 0 <= i < |ops| ==> ops[i].table != u
    requires Run(s, ops).Some?
    ensures u in Run(s, ops).value <==> u in s
    ensures u in s ==> Run(s, ops).value[u] == s[u]
    decreases |ops|
  {
    if ops != [] {
      ApplyElsewhere(s, ops[0], u);
      assert forall i :: 0 <= i < |ops[1..]| ==> ops[1..][i] == ops[i + 1];
      RunElsewhere(Apply(s, ops[0]).value, ops[1..], u);
    }
  }

  /** Dropping a table's indexes and then the table leaves what dropping
      the table alone leaves. */
  lemma {:induction false} DropIndexesThenTable(s: Schema, t: String, drops: seq<Op>)
    requires forall i :: 0 <= i < |drops| ==> drops[i].DropIndex? && drops[i].table == t
    requires Run(s, drops + [DropTable(t)]).Some?
    ensures Apply(s, DropTable(t)) == Run(s, drops + [DropTable(t)])
    decreases |drops|
  {
    if drops == [] {
      assert drops + [DropTable(t)] == [DropTable(t)];
      RunSingle(s, DropTable(t));
    } else {
      assert (drops + [DropTable(t)])[0] == drops[0];
      assert (drops + [DropTable(t)])[1..] == drops[1..] + [DropTable(t)];
      var s1 := Apply(s, drops[0]).value;
      assert s1 == s[t := s[t].(indexes := s[t].indexes - {drops[0].name})];
      assert s1 - {t} == s - {t};
      assert forall i :: 0 <= i < |drops[1..]| ==> drops[1..][i] == drops[i + 1];
      DropIndexesThenTable(s1, t, drops[1..]);
    }
  }

  /** A body whose only index drop comes first and drops an index no key
      needs runs under MySQL as it runs under `Run`. */
  lemma FreeIndexFirst(s: Schema, ops: seq<Op>)
    requires ops != [] && ops[0].DropIndex? && ops[0].table in s
    requires !NeededByForeignKey(s[ops[0].table], ops[0].name)
    requires forall i :: 1 <= i < |ops| ==> !ops[i].DropIndex?
    ensures RunMySql(s, ops) == Run(s, ops)
  {
    assert forall i :: 0 <= i < |ops[1..]| ==> ops[1..][i] == ops[i + 1];
  }
  /** A downgrade that drops a table at once, without first dropping its
      indexes one by one, ends where the longer one ends, provided MySQL
      runs the rest as `Run` does. */
  lemma TableFirstDowngrade(s: Schema, t: String, drops: seq<Op>, rest: seq<Op>)
    requires forall i :: 0 <= i < |drops| ==> drops[i].DropIndex? && drops[i].table == t
    requires Run(s, drops + [DropTable(t)]).Some?
    requires RunMySql(s - {t}, rest) == Run(s - {t}, rest)
    ensures RunMySql(s, [DropTable(t)] + rest) == Run(s, drops + [DropTable(t)] + rest)
  {
    DropIndexesThenTable(s, t, drops);
    RunAppend(s, drops + [DropTable(t)], rest);
    assert ([DropTable(t)] + rest)[0] == DropTable(t);
    assert ([DropTable(t)] + rest)[1..] == rest;
  }
}
