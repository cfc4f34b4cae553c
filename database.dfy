/** src/database.py: a sqlite database of TEXT tables, reached through a
    connection that each operation opens and closes. The database file's
    committed contents are a field of the object: a map from table name to
    its column names and rows, a row mapping each column to its value.
    Statements that fail are caught and leave the tables as they were. */
module Db {
  import opened PyJson
  import Utils

  /** `self.conn`: never opened (None), open, or closed. */
  datatype ConnState = NoConn | Open | Closed

  datatype Table = Table(columns: seq<string>, rows: seq<map<string, Json>>)

  predicate Distinct(xs: seq<string>)
  {
    forall i, j :: 0 <= i < j < |xs| ==> xs[i] != xs[j]
  }

  /** A value sqlite can bind to `?`: not a list and not a dict. */
  predicate Bindable(v: Json)
  {
    !v.JList? && !v.JObj?
  }

  /** The first position of `x` in `xs`. */
  function IndexOf(xs: seq<string>, x: string): (i: nat)
    requires x in xs
    ensures i < |xs| && xs[i] == x && x !in xs[..i]
  {
    if xs[0] == x then 0
    else
      assert xs[1..][..IndexOf(xs[1..], x)] == xs[..IndexOf(xs[1..], x) + 1][1..];
      1 + IndexOf(xs[1..], x)
  }

  lemma IndexOfDistinct(xs: seq<string>, i: nat)
    requires Distinct(xs) && i < |xs|
    ensures IndexOf(xs, xs[i]) == i
  {
  }

  /** The row an INSERT naming `columns` writes: each named column holds
      its value, every other column of the table is NULL. */
  function NewRow(tableColumns: seq<string>, columns: seq<string>, values: seq<Json>): (row: map<string, Json>)
    requires |columns| == |values|
    ensures row.Keys == set c | c in tableColumns
  {
    map c | c in tableColumns :: if c in columns then values[IndexOf(columns, c)] else JNull
  }

  /** `UPDATE ... SET c1 = ?, ...` applied to one row. */
  function SetColumns(row: map<string, Json>, columns: seq<string>, values: seq<Json>): (r: map<string, Json>)
    requires |columns| == |values|
    ensures r.Keys == row.Keys
  {
    map c | c in row :: if c in columns then values[IndexOf(columns, c)] else row[c]
  }

  /** Whether an INSERT or UPDATE naming `columns` with `values` runs:
      as many values as columns, at least one column, every column in the
      table and every value bindable. */
  predicate Writable(t: Table, columns: seq<string>, values: seq<Json>)
  {
    |columns| == |values| && columns != [] &&
    (forall c :: c in columns ==> c in t.columns) &&
    (forall v :: v in values ==> Bindable(v))
  }

  /** `WHERE contact_info = ?`. */
  predicate Matches(row: map<string, Json>, contact: Json)
  {
    "contact_info" in row && row["contact_info"] == contact
  }

  /** `SELECT COUNT(*) ... WHERE contact_info = ?`. */
  function MatchCount(rows: seq<map<string, Json>>, contact: Json): (n: nat)
    ensures n <= |rows|
    ensures n == 0 <==> forall i :: 0 <= i < |rows| ==> !Matches(rows[i], contact)
  {
    if rows == [] then 0
    else (if Matches(rows[0], contact) then 1 else 0) + MatchCount(rows[1..], contact)
  }

  /** The caller's dict after the loop that replaces each list value by
      `json.dumps(value)`; `dumps` stands for `json.dumps`. */
  function DumpLists(fs: seq<Field>, dumps: seq<Json> -> string): (r: seq<Field>)
    ensures |r| == |fs| && forall i :: 0 <= i < |fs| ==> r[i] == DumpField(fs[i], dumps)
  {
    if fs == [] then [] else [DumpField(fs[0], dumps)] + DumpLists(fs[1..], dumps)
  }

  function DumpField(f: Field, dumps: seq<Json> -> string): Field
  {
    if f.val.JList? then Field(f.key, JStr(dumps(f.val.items))) else f
  }

  /** The loop keeps every key in place, turns each list into its JSON
      text and leaves every other value alone, so no list remains. */
  lemma DumpListsEffect(fs: seq<Field>, dumps: seq<Json> -> string)
    ensures Keys(DumpLists(fs, dumps)) == Keys(fs)
    ensures forall i :: 0 <= i < |fs| ==>
      Values(DumpLists(fs, dumps))[i] == (if fs[i].val.JList? then JStr(dumps(fs[i].val.items)) else fs[i].val)
    ensures forall i :: 0 <= i < |fs| ==> !Values(DumpLists(fs, dumps))[i].JList?
  {
    var r := DumpLists(fs, dumps);
    assert forall i :: 0 <= i < |fs| ==> Keys(r)[i] == Keys(fs)[i];
  }

  /** What `insert_data` commits, given the caller's dict after the list
      conversion: nothing for a falsy `contact_info` or a failing statement;
      otherwise the rows with that contact are overwritten, or one row is
      added when there is none. */
  function Upsert(tables: map<string, Table>, name: string, data: seq<Field>, modelFields: seq<string>)
    : (r: map<string, Table>)
    ensures r.Keys == tables.Keys
    ensures forall k :: k in tables && k != name ==> r[k] == tables[k]
    ensures name in tables ==>
      (r[name].columns == tables[name].columns && |tables[name].rows| <= |r[name].rows| <= |tables[name].rows| + 1)
  {
    var contact := GetOr(data, "contact_info", JNull);
    if !Truthy(contact) || name !in tables then tables
    else
      var t := tables[name];
      var values := Values(data);
      if "contact_info" !in t.columns || !Bindable(contact) || !Writable(t, modelFields, values) then tables
      else if MatchCount(t.rows, contact) > 0 then
        tables[name := Table(t.columns, UpdateMatching(t.rows, contact, modelFields, values))]
      else
        tables[name := Table(t.columns, t.rows + [NewRow(t.columns, modelFields, values)])]
  }

  function UpdateMatching(rows: seq<map<string, Json>>, contact: Json, columns: seq<string>, values: seq<Json>)
    : (r: seq<map<string, Json>>)
    requires |columns| == |values|
    ensures |r| == |rows|
    ensures forall i :: 0 <= i < |rows| ==>
      r[i] == if Matches(rows[i], contact) then SetColumns(rows[i], columns, values) else rows[i]
  {
    seq(|rows|, i requires 0 <= i < |rows| =>
      if Matches(rows[i], contact) then SetColumns(rows[i], columns, values) else rows[i])
  }

  /** `CREATE TABLE IF NOT EXISTS name (c1 TEXT, ...)`: an existing table,
      no column or a repeated column leaves the database as it is. */
  function Created(tables: map<string, Table>, name: string, columns: seq<string>): (r: map<string, Table>)
    ensures forall k :: k in tables ==> k in r && r[k] == tables[k]
    ensures name in r <==> name in tables || (columns != [] && Distinct(columns))
    ensures r.Keys <= tables.Keys + {name}
    ensures name !in tables && name in r ==> r[name].rows == [] && r[name].columns == columns
  {
    if name in tables || columns == [] || !Distinct(columns) then tables
    else tables[name := Table(columns, [])]
  }

  /** `DELETE FROM name`. */
  function Cleared(tables: map<string, Table>, name: string): (r: map<string, Table>)
    ensures r.Keys == tables.Keys
    ensures forall k :: k in tables ==> r[k].columns == tables[k].columns && (k != name ==> r[k] == tables[k])
    ensures name in r ==> r[name].rows == []
  {
    if name in tables then tables[name := Table(tables[name].columns, [])] else tables
  }

  /** The rows the loop of `load_from_json` inserts, each item's values in
      order under `columns`, or None when one of the inserts fails. */
  function LoadRows(t: Table, items: seq<Json>, columns: seq<string>): (r: Option<seq<map<string, Json>>>)
    ensures r.Some? <==> forall i :: 0 <= i < |items| ==> items[i].JObj? && Writable(t, columns, Values(items[i].fields))
    ensures r.Some? ==> |r.value| == |items|
    ensures r.Some? ==> forall i :: 0 <= i < |items| ==>
      items[i].JObj? && Writable(t, columns, Values(items[i].fields)) &&
      r.value[i] == NewRow(t.columns, columns, Values(items[i].fields))
    decreases |items|
  {
    if items == [] then Some([])
    else
      var init :- LoadRows(t, items[..|items| - 1], columns);
      var item := items[|items| - 1];
      if !item.JObj? || !Writable(t, columns, Values(item.fields)) then None
      else Some(init + [NewRow(t.columns, columns, Values(item.fields))])
  }

  /** What `load_from_json` commits: every item's row, appended in file
      order, or nothing when the file, an item or an insert fails. */
  function Loaded(tables: map<string, Table>, file: Utils.FileRead, name: string, columns: seq<string>)
    : (r: map<string, Table>)
    ensures r.Keys == tables.Keys
    ensures forall k :: k in tables && k != name ==> r[k] == tables[k]
    ensures name in tables ==> r[name].columns == tables[name].columns
  {
    match file
    case Unreadable => tables
    case Parsed(doc) =>
      match Iterate(doc)
      case Raised(_) => tables
      case Returned(items) =>
        if name !in tables then tables
        else match LoadRows(tables[name], items, columns)
          case None => tables
          case Some(rows) => tables[name := Table(tables[name].columns, tables[name].rows + rows)]
  }

  /** The caller's `data` dict, which `insert_data` changes in place. */
  class PyDict {
    var fields: seq<Field>

    constructor (fields0: seq<Field>)
      ensures fields == fields0
    {
      fields := fields0;
    }
  }

  class Database {
    var dbType: string
    var dbUrl: string
    var conn: ConnState
    /** The committed contents of the database file. */
    var tables: map<string, Table>

    /** `Database(db_type, db_url)` over a file holding `stored`. */
    constructor (kind: string, url: string, stored: map<string, Table>)
      ensures dbType == kind && dbUrl == url && conn == NoConn && tables == stored
    {
      dbType := kind;
      dbUrl := url;
      conn := NoConn;
      tables := stored;
    }

    /** `connect` succeeds for sqlite when the URL has a directory part
        (`os.makedirs` of an empty dirname raises). */
    predicate CanConnect()
      reads this
    {
      dbType == "sqlite" && '/' in dbUrl
    }

    /** `connect()`: opens the connection, or raises. */
    method Connect() returns (r: Outcome<()>)
      modifies this
      ensures r.Returned? <==> old(CanConnect())
      ensures conn == (if r.Returned? then Open else old(conn))
      ensures tables == old(tables) && dbType == old(dbType) && dbUrl == old(dbUrl)
    {
      if dbType != "sqlite" {
        return Raised("ValueError: Database Type not implemented");
      }
      if '/' !in dbUrl {
        return Raised("FileNotFoundError: ''");
      }
      conn := Open;
      r := Returned(());
    }

    /** `close()`: closes a connection that was ever opened. */
    method Close()
      modifies this
      ensures conn == (if old(conn) == NoConn then NoConn else Closed)
      ensures tables == old(tables) && dbType == old(dbType) && dbUrl == old(dbUrl)
    {
      if conn != NoConn {
        conn := Closed;
      }
    }

    /** `create_table(table_name, columns)`. */
    method CreateTable(tableName: string, columns: seq<string>) returns (r: Outcome<()>)
      modifies this
      ensures r.Returned? <==> old(CanConnect())
      ensures r.Returned? ==> tables == Created(old(tables), tableName, columns) && conn == Closed
      ensures r.Raised? ==> tables == old(tables) && conn == old(conn)
      ensures dbType == old(dbType) && dbUrl == old(dbUrl)
    {
      r := Connect();
      if r.Raised? {
        return;
      }
      if tableName !in tables && columns != [] && Distinct(columns) {
        tables := tables[tableName := Table(columns, [])];
      }
      Close();
    }

    /** `insert_data(table_name, data, pydantic_class)`, where `modelFields`
        are the class's fields and `data`'s keys are those fields in order. */
    method InsertData(tableName: string, data: PyDict, modelFields: seq<string>, dumps: seq<Json> -> string)
      returns (r: Outcome<()>)
      requires Keys(data.fields) == modelFields
      modifies this, data
      ensures r.Returned? <==> old(CanConnect())
      ensures r.Returned? ==>
        data.fields == DumpLists(old(data.fields), dumps) &&
        tables == Upsert(old(tables), tableName, data.fields, modelFields) && conn == Closed
      ensures r.Raised? ==> data.fields == old(data.fields) && tables == old(tables) && conn == old(conn)
      ensures dbType == old(dbType) && dbUrl == old(dbUrl)
    {
      r := Connect();
      if r.Raised? {
        return;
      }
      DumpListsInPlace(data, dumps);
      var values := Values(data.fields);
      var contact := GetOr(data.fields, "contact_info", JNull);
      if Truthy(contact) && tableName in tables {
        var t := tables[tableName];
        if "contact_info" in t.columns && Bindable(contact) {
          var count := MatchCount(t.rows, contact);
          if Writable(t, modelFields, values) {
            if count > 0 {
              tables := tables[tableName := Table(t.columns, UpdateMatching(t.rows, contact, modelFields, values))];
            } else {
              tables := tables[tableName := Table(t.columns, t.rows + [NewRow(t.columns, modelFields, values)])];
            }
          }
        }
      }
      Close();
    }

    /** The loop over `data.items()` that stores `json.dumps(value)` in
        place of every list value. */
    static method DumpListsInPlace(data: PyDict, dumps: seq<Json> -> string)
      modifies data
      ensures data.fields == DumpLists(old(data.fields), dumps)
    {
      ghost var before := data.fields;
      var i := 0;
      while i < |data.fields|
        invariant 0 <= i <= |data.fields| == |before|
        invariant forall j :: 0 <= j < i ==> data.fields[j] == DumpField(before[j], dumps)
        invariant forall j :: i <= j < |data.fields| ==> data.fields[j] == before[j]
      {
        var f := data.fields[i];
        if f.val.JList? {
          data.fields := data.fields[i := Field(f.key, JStr(dumps(f.val.items)))];
        }
        i := i + 1;
      }
    }

    /** `clear_table(table_name)`. */
    method ClearTable(tableName: string) returns (r: Outcome<()>)
      modifies this
      ensures r.Returned? <==> old(CanConnect())
      ensures r.Returned? ==> tables == Cleared(old(tables), tableName) && conn == Closed
      ensures r.Raised? ==> tables == old(tables) && conn == old(conn)
      ensures dbType == old(dbType) && dbUrl == old(dbUrl)
    {
      r := Connect();
      if r.Raised? {
        return;
      }
      if tableName in tables {
        tables := tables[tableName := Table(tables[tableName].columns, [])];
      }
      Close();
    }

    /** `load_from_json(file_path, table_name, columns)`: the inserts go to
        an uncommitted copy that is committed only after the loop. */
    method LoadFromJson(file: Utils.FileRead, tableName: string, columns: seq<string>) returns (r: Outcome<()>)
      requires Distinct(columns)
      modifies this
      ensures r.Returned? <==> old(CanConnect())
      ensures r.Returned? ==> tables == Loaded(old(tables), file, tableName, columns) && conn == Closed
      ensures r.Raised? ==> tables == old(tables) && conn == old(conn)
      ensures dbType == old(dbType) && dbUrl == old(dbUrl)
    {
      r := Connect();
      if r.Raised? {
        return;
      }
      if file.Unreadable? {
        Close();
        return;
      }
      var items := Iterate(file.doc);
      if items.Raised? || tableName !in tables {
        Close();
        return;
      }
      var t := tables[tableName];
      var pending: seq<map<string, Json>> := [];
      var i := 0;
      while i < |items.value|
        invariant 0 <= i <= |items.value|
        invariant LoadRows(t, items.value[..i], columns) == Some(pending)
      {
        var item := items.value[i];
        assert items.value[..i + 1][..i] == items.value[..i];
        if !item.JObj? || !Writable(t, columns, Values(item.fields)) {
          // The exception ends the loop before the commit; closing discards
          // the pending inserts.
          LoadRowsFail(t, items.value, columns, i);
          Close();
          return;
        }
        pending := pending + [NewRow(t.columns, columns, Values(item.fields))];
        i := i + 1;
      }
      assert items.value[..i] == items.value;
      tables := tables[tableName := Table(t.columns, t.rows + pending)];
      Close();
    }
  }

  /** A failing insert makes the whole load fail. */
  lemma LoadRowsFail(t: Table, items: seq<Json>, columns: seq<string>, i: nat)
    requires i < |items|
    requires !items[i].JObj? || !Writable(t, columns, Values(items[i].fields))
    ensures LoadRows(t, items, columns) == None
  {
  }

  /** A profile without a truthy `contact_info` executes nothing. */
  lemma FalsyContactUnchanged(tables: map<string, Table>, name: string, data: seq<Field>, modelFields: seq<string>)
    requires !Truthy(GetOr(data, "contact_info", JNull))
    ensures Upsert(tables, name, data, modelFields) == tables
  {
  }

  /** Only the named table can change. */
  lemma UpsertOtherTables(tables: map<string, Table>, name: string, data: seq<Field>, modelFields: seq<string>, other: string)
    requires other != name
    ensures var r := Upsert(tables, name, data, modelFields);
      r.Keys == tables.Keys && (other in tables ==> r[other] == tables[other])
  {
  }

  /** A contact already stored: its rows are overwritten with the profile's
      values, every other row is kept, and the row count is unchanged. */
  lemma UpsertUpdates(tables: map<string, Table>, name: string, data: seq<Field>, modelFields: seq<string>)
    requires name in tables && Keys(data) == modelFields
    requires var contact := GetOr(data, "contact_info", JNull);
      Truthy(contact) && "contact_info" in tables[name].columns && Bindable(contact) &&
      Writable(tables[name], modelFields, Values(data)) && MatchCount(tables[name].rows, contact) > 0
    ensures var t := tables[name];
      var t' := Upsert(tables, name, data, modelFields)[name];
      var contact := GetOr(data, "contact_info", JNull);
      |t'.rows| == |t.rows| && t'.columns == t.columns &&
      forall i :: 0 <= i < |t.rows| ==>
        (Matches(t.rows[i], contact) ==> t'.rows[i] == SetColumns(t.rows[i], modelFields, Values(data))) &&
        (!Matches(t.rows[i], contact) ==> t'.rows[i] == t.rows[i])
  {
  }

  /** A new contact: exactly one row is appended, holding the profile's
      value in every model column. */
  lemma UpsertInserts(tables: map<string, Table>, name: string, data: seq<Field>, modelFields: seq<string>)
    requires name in tables && Keys(data) == modelFields && Distinct(modelFields)
    requires var contact := GetOr(data, "contact_info", JNull);
      Truthy(contact) && "contact_info" in tables[name].columns && Bindable(contact) &&
      Writable(tables[name], modelFields, Values(data)) && MatchCount(tables[name].rows, contact) == 0
    ensures var t := tables[name];
      var t' := Upsert(tables, name, data, modelFields)[name];
      |t'.rows| == |t.rows| + 1 && t'.rows[..|t.rows|] == t.rows &&
      forall i :: 0 <= i < |data| ==> t'.rows[|t.rows|][data[i].key] == data[i].val
  {
    var t := tables[name];
    var t' := Upsert(tables, name, data, modelFields)[name];
    assert t'.rows[..|t.rows|] == t.rows;
    forall i | 0 <= i < |data|
      ensures t'.rows[|t.rows|][data[i].key] == data[i].val
    {
      assert modelFields[i] == data[i].key;
      IndexOfDistinct(modelFields, i);
      assert data[i].key in modelFields;
    }
  }

  /** `CREATE TABLE IF NOT EXISTS` a second time changes nothing. */
  lemma CreateIdempotent(tables: map<string, Table>, name: string, columns: seq<string>)
    ensures Created(Created(tables, name, columns), name, columns) == Created(tables, name, columns)
  {
  }

  /** A table that exists keeps its columns and rows when created again. */
  lemma CreateExisting(tables: map<string, Table>, name: string, columns: seq<string>)
    requires name in tables
    ensures Created(tables, name, columns) == tables
  {
  }

  /** After `clear_table` the table is empty, with its columns kept. */
  lemma ClearEmpties(tables: map<string, Table>, name: string)
    requires name in tables
    ensures var r := Cleared(tables, name);
      r[name].rows == [] && r[name].columns == tables[name].columns && r.Keys == tables.Keys
  {
  }

  /** `load_from_json` is all or nothing: either the database is unchanged
      or, after the existing rows, row i of the appended ones is item i's
      values under `columns`, in file order. */
  lemma LoadAllOrNothing(tables: map<string, Table>, file: Utils.FileRead, name: string, columns: seq<string>)
    ensures var r := Loaded(tables, file, name, columns);
      r == tables ||
      (file.Parsed? && Iterate(file.doc).Returned? && name in tables && r.Keys == tables.Keys &&
       var items := Iterate(file.doc).value;
       var old_rows := tables[name].rows;
       r[name].columns == tables[name].columns &&
       |r[name].rows| == |old_rows| + |items| &&
       r[name].rows[..|old_rows|] == old_rows &&
       forall i :: 0 <= i < |items| ==>
         items[i].JObj? && Writable(tables[name], columns, Values(items[i].fields)) &&
         r[name].rows[|old_rows| + i] == NewRow(tables[name].columns, columns, Values(items[i].fields)))
  {
    var r := Loaded(tables, file, name, columns);
    if r != tables {
      var rows := LoadRows(tables[name], Iterate(file.doc).value, columns).value;
      assert (tables[name].rows + rows)[..|tables[name].rows|] == tables[name].rows;
    }
  }

  /** An item that is not a dict, or whose values do not fit the columns,
      loses the whole file. */
  lemma LoadBadItem(tables: map<string, Table>, items: seq<Json>, name: string, columns: seq<string>, i: nat)
    requires i < |items| && name in tables
    requires !items[i].JObj? || !Writable(tables[name], columns, Values(items[i].fields))
    ensures Loaded(tables, Utils.Parsed(JList(items)), name, columns) == tables
  {
    LoadRowsFail(tables[name], items, columns, i);
  }
}
