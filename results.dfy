/** The result cursor `CResultSet`: a column-name index built once from the
    field list of a stored result, forward-only row iteration, and typed cell
    accessors that degrade to a default value for an unknown column. */
module Results {
  import opened Common

  /** One fetched row: a cell is `None` where the server sent SQL NULL. */
  type Row = seq<Option<string>>

  /** The name-to-index map that inserting `(fields[i], i)` for i = 0, 1, ...
      into a `std::map` leaves behind: `insert` never overwrites, so for a
      repeated name the first index wins. */
  ghost function FirstIndexMap(fields: seq<string>): (m: map<string, int>)
    ensures forall name :: name in m <==> name in fields
    ensures forall name | name in m ::
      0 <= m[name] < |fields| && fields[m[name]] == name
      && forall j :: 0 <= j < m[name] ==> fields[j] != name
  {
    if fields == [] then map[]
    else
      var prefix := fields[..|fields| - 1];
      var m := FirstIndexMap(prefix);
      var last := fields[|fields| - 1];
      assert forall name :: name in fields <==> name in prefix || name == last;
      if last in m then m else m[last := |fields| - 1]
  }

  class ResultSet {
    /** Column names, in the order `mysql_fetch_fields` reports them. */
    const fields: seq<string>
    /** The rows of the stored result, in the order `mysql_fetch_row` hands them out. */
    const rows: seq<Row>
    /** How many rows the cursor has consumed so far. */
    var fetched: nat
    /** `m_row`: the current row, `None` before the first `Next` and after the last. */
    var row: Option<Row>
    /** `m_key_map`. */
    var keyMap: map<string, int>

    ghost predicate Valid()
      reads this
    {
      && keyMap == FirstIndexMap(fields)
      && fetched <= |rows|
      && (forall r | r in rows :: |r| == |fields|)
      && (row.Some? ==> |row.value| == |fields|)
    }

    /** Builds the column index by enumerating the field list once. Every row
        the client library returns has one cell per field. */
    constructor (fieldNames: seq<string>, resultRows: seq<Row>)
      requires forall r | r in resultRows :: |r| == |fieldNames|
      ensures Valid()
      ensures fields == fieldNames && rows == resultRows
      ensures fetched == 0 && row == None
    {
      var m: map<string, int> := map[];
      var i := 0;
      while i < |fieldNames|
        invariant 0 <= i <= |fieldNames|
        invariant m == FirstIndexMap(fieldNames[..i])
      {
        assert fieldNames[..i + 1][..i] == fieldNames[..i];
        if fieldNames[i] !in m {
          m := m[fieldNames[i] := i];
        }
        i := i + 1;
      }
      assert fieldNames[..|fieldNames|] == fieldNames;
      fields := fieldNames;
      rows := resultRows;
      fetched := 0;
      row := None;
      keyMap := m;
    }

    /** Advances to the next row; false once the rows are used up, and on
        every call after that. */
    method Next() returns (more: bool)
      requires Valid()
      modifies this
      ensures Valid()
      ensures keyMap == old(keyMap)
      ensures more <==> old(fetched) < |rows|
      ensures more ==> row == Some(rows[old(fetched)]) && fetched == old(fetched) + 1
      ensures !more ==> row == None && fetched == old(fetched) == |rows|
    {
      if fetched < |rows| {
        row := Some(rows[fetched]);
        fetched := fetched + 1;
        more := true;
      } else {
        row := None;
        more := false;
      }
    }

    /** `_GetIndex`: the column's position, or -1 for a name the result does not have. */
    function GetIndex(key: string): (idx: int)
      reads this
      requires Valid()
      ensures idx == -1 <==> key !in fields
      ensures idx != -1 ==>
        0 <= idx < |fields| && fields[idx] == key
        && forall j :: 0 <= j < idx ==> fields[j] != key
    {
      if key in keyMap then keyMap[key] else -1
    }

    /** `GetInt`: 0 for an unknown column; otherwise the current cell decoded
        by `atoi`, which is passed in because its parsing is not modelled.
        A known column needs a current row holding a non-NULL cell. */
    function GetInt(key: string, atoi: string -> int32): (r: int32)
      reads this
      requires Valid()
      requires key in fields ==> row.Some? && row.value[GetIndex(key)].Some?
      ensures key !in fields ==> r == 0
      ensures key in fields ==> r == atoi(row.value[GetIndex(key)].value)
    {
      var idx := GetIndex(key);
      if idx == -1 then 0 else atoi(row.value[idx].value)
    }

    /** `GetString`: NULL (`None`) for an unknown column; otherwise the
        current row's cell for that column, itself NULL for an SQL NULL. */
    function GetString(key: string): (r: Option<string>)
      reads this
      requires Valid()
      requires key in fields ==> row.Some?
      ensures key !in fields ==> r == None
      ensures key in fields ==> r == row.value[GetIndex(key)]
    {
      var idx := GetIndex(key);
      if idx == -1 then None else row.value[idx]
    }
  }
}
