/**
 The checksum table of src/file_db.cpp: rows (name, checksum, timestamp) with
 no uniqueness constraint of its own. Statements are assumed to succeed.
 */
module FileDb {
  import opened Options

  datatype Row = Row(name: string, sum: string, timestamp: int)

  /** find: the first row with the name. */
  function Find(rows: seq<Row>, name: string): (r: Option<Row>)
    ensures r.Some? ==> r.value in rows && r.value.name == name
    ensures r.None? ==> forall x :: x in rows ==> x.name != name
  {
    if rows == [] then None
    else if rows[0].name == name then Some(rows[0])
    else Find(rows[1..], name)
  }

  function Insert(rows: seq<Row>, name: string, sum: string, now: int): seq<Row>
  {
    rows + [Row(name, sum, now)]
  }

  /** update: every row with the name. */
  function Update(rows: seq<Row>, name: string, sum: string, now: int): (r: seq<Row>)
    ensures |r| == |rows|
  {
    seq(|rows|, i requires 0 <= i < |rows| =>
      if rows[i].name == name then Row(name, sum, now) else rows[i])
  }

  /** del: every row with the name. */
  function Delete(rows: seq<Row>, name: string): (r: seq<Row>)
    ensures forall x :: x in r <==> x in rows && x.name != name
  {
    if rows == [] then []
    else if rows[0].name == name then Delete(rows[1..], name)
    else [rows[0]] + Delete(rows[1..], name)
  }

  ghost predicate Unique(rows: seq<Row>)
  {
    forall i, j :: 0 <= i < j < |rows| ==> rows[i].name != rows[j].name
  }

  lemma {:induction false} FindAfterInsert(rows: seq<Row>, name: string, sum: string, now: int, f: string)
    requires Find(rows, name).None?
    ensures Find(Insert(rows, name, sum, now), f)
         == if f == name then Some(Row(name, sum, now)) else Find(rows, f)
  {
    if rows != [] {
      assert Insert(rows, name, sum, now)[1..] == Insert(rows[1..], name, sum, now);
      FindAfterInsert(rows[1..], name, sum, now, f);
    }
  }

  lemma {:induction false} FindAfterUpdate(rows: seq<Row>, name: string, sum: string, now: int, f: string)
    requires Find(rows, name).Some?
    ensures Find(Update(rows, name, sum, now), f)
         == if f == name then Some(Row(name, sum, now)) else Find(rows, f)
  {
    var u := Update(rows, name, sum, now);
    assert u[1..] == Update(rows[1..], name, sum, now);
    if rows[0].name != name {
      FindAfterUpdate(rows[1..], name, sum, now, f);
    } else if f != name {
      OtherAfterUpdate(rows[1..], name, sum, now, f);
    }
  }

  lemma {:induction false} OtherAfterUpdate(rows: seq<Row>, name: string, sum: string, now: int, f: string)
    requires f != name
    ensures Find(Update(rows, name, sum, now), f) == Find(rows, f)
  {
    if rows != [] {
      assert Update(rows, name, sum, now)[1..] == Update(rows[1..], name, sum, now);
      OtherAfterUpdate(rows[1..], name, sum, now, f);
    }
  }

  lemma {:induction false} FindAfterDelete(rows: seq<Row>, name: string, f: string)
    ensures Find(Delete(rows, name), f) == if f == name then None else Find(rows, f)
  {
    if rows != [] {
      FindAfterDelete(rows[1..], name, f);
      if rows[0].name != name {
        assert Delete(rows, name)[1..] == Delete(rows[1..], name);
      }
    }
  }

  /** Rows stay unique as long as only absent names are inserted. */
  lemma {:induction false} StaysUnique(rows: seq<Row>, name: string, sum: string, now: int)
    requires Unique(rows)
    ensures Find(rows, name).None? ==> Unique(Insert(rows, name, sum, now))
    ensures Unique(Update(rows, name, sum, now))
    ensures Unique(Delete(rows, name))
  {
    if Find(rows, name).None? {
      forall i | 0 <= i < |rows|
        ensures rows[i].name != name
      {
        assert rows[i] in rows;
      }
    }
    DeleteUnique(rows, name);
  }

  lemma {:induction false} DeleteUnique(rows: seq<Row>, name: string)
    requires Unique(rows)
    ensures Unique(Delete(rows, name))
  {
    if rows != [] {
      assert Unique(rows[1..]);
      DeleteUnique(rows[1..], name);
      var d := Delete(rows[1..], name);
      forall j | 0 <= j < |d|
        ensures d[j].name != rows[0].name
      {
        assert d[j] in rows[1..];
      }
    }
  }

  class FileDB {
    var rows: seq<Row>

    constructor (stored: seq<Row>)
      ensures rows == stored
    {
      rows := stored;
    }

    method FindRow(name: string) returns (found: bool, sum: string, timestamp: int)
      ensures found <==> Find(rows, name).Some?
      ensures found ==> Find(rows, name) == Some(Row(name, sum, timestamp))
    {
      var r := Find(rows, name);
      match r
      case None => found, sum, timestamp := false, "", 0;
      case Some(row) => found, sum, timestamp := true, row.sum, row.timestamp;
    }

    method InsertRow(name: string, sum: string, now: int)
      modifies this
      ensures rows == Insert(old(rows), name, sum, now)
    {
      rows := rows + [Row(name, sum, now)];
    }

    method UpdateRows(name: string, sum: string, now: int)
      modifies this
      ensures rows == Update(old(rows), name, sum, now)
    {
      rows := Update(rows, name, sum, now);
    }

    method DeleteRows(name: string)
      modifies this
      ensures rows == Delete(old(rows), name)
    {
      rows := Delete(rows, name);
    }
  }
}
