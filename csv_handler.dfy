/** The CSV ledger (`CSVHandler` in csv_handler.py): one row per saved
    conversation, under a four-column header that is written only when the
    file is new.

    Files are modelled as the rows they hold, each row its list of fields;
    whether opening a file for writing succeeds is an oracle (the message of
    the exception it raised, if any). */
module Ledger {
  import opened Wrappers

  type Row = seq<string>

  /** The header row. */
  const Header: Row := ["Имя менеджера", "Дата", "ID", "Резюме"]

  /** The files, by path, each as its rows. */
  class Disk {
    var files: map<string, seq<Row>>

    constructor (files: map<string, seq<Row>>)
      ensures this.files == files
    {
      this.files := files;
    }
  }

  /** A ledger file: the header, then the entries. */
  predicate IsLedger(rows: seq<Row>)
  {
    |rows| >= 1 && rows[0] == Header
  }

  /** The rows of a file after one entry is appended to it: a missing file
      gets the header first, an existing one keeps every row it had. */
  function Appended(existing: Option<seq<Row>>, row: Row): (rows: seq<Row>)
    ensures existing.None? ==> rows == [Header, row]
    ensures existing.Some? ==> |rows| == |existing.value| + 1 && rows[..|existing.value|] == existing.value
    ensures rows[|rows| - 1] == row
  {
    match existing
    case None => [Header, row]
    case Some(earlier) => earlier + [row]
  }

  /** The entries `read_entries` returns for a file's rows: the rows under the
      first one, which names the columns; a file with no rows yields none. */
  function Entries(rows: seq<Row>): seq<Row>
  {
    if |rows| == 0 then [] else rows[1..]
  }

  /** Appending entries one by one to a missing file or a ledger yields a
      ledger whose entries are the earlier ones followed by the new ones, in
      order. */
  lemma {:induction false} AppendAll(existing: Option<seq<Row>>, rows: seq<Row>)
    requires existing.Some? ==> IsLedger(existing.value)
    requires |rows| > 0
    ensures var r := AppendedAll(existing, rows);
            && IsLedger(r)
            && Entries(r) == (if existing.Some? then Entries(existing.value) else []) + rows
    decreases |rows|
  {
    var first := Appended(existing, rows[0]);
    if |rows| > 1 {
      AppendAll(Some(first), rows[1..]);
      assert Entries(first) == (if existing.Some? then Entries(existing.value) else []) + [rows[0]];
      assert [rows[0]] + rows[1..] == rows;
    } else if existing.Some? {
      assert Entries(first) == Entries(existing.value) + [rows[0]];
    }
  }

  function AppendedAll(existing: Option<seq<Row>>, rows: seq<Row>): seq<Row>
    requires |rows| > 0
    decreases |rows|
  {
    var first := Appended(existing, rows[0]);
    if |rows| == 1 then first else AppendedAll(Some(first), rows[1..])
  }

  class CSVHandler {
    var filePath: Option<string>
    var unsavedChanges: bool

    constructor (filePath: Option<string>)
      ensures this.filePath == filePath && !unsavedChanges
    {
      this.filePath := filePath;
      unsavedChanges := false;
    }

    /** `set_file_path`: selects a file and clears the unsaved flag. */
    method SetFilePath(path: string)
      modifies this
      ensures filePath == Some(path) && !unsavedChanges
    {
      filePath := Some(path);
      unsavedChanges := false;
    }

    /** `create_new_file`: the file holds just the header afterwards and is
      selected; a failed open raises to the caller and changes nothing. */
    method CreateNewFile(path: string, disk: Disk, openError: Option<string>) returns (r: Result<string>)
      modifies this, disk
      ensures openError.Some? ==>
                r == Failure(openError.value) && unchanged(this) && disk.files == old(disk.files)
      ensures openError.None? ==>
                && r == Success(path) && disk.files == old(disk.files)[path := [Header]]
                && filePath == Some(path) && !unsavedChanges
    {
      if openError.Some? {
        return Failure(openError.value);
      }
      disk.files := disk.files[path := [Header]];
      filePath := Some(path);
      unsavedChanges := false;
      r := Success(path);
    }

    /** `add_entry`: appends one row, after the header if the file is new.
      Without a selected file, or when opening fails, nothing is written, the
      result is false and the unsaved flag is set. */
    method AddEntry(managerName: string, date: string, conversationId: string, summary: string,
                    disk: Disk, openError: Option<string>) returns (ok: bool)
      modifies this, disk
      ensures filePath == old(filePath)
      ensures ok <==> old(filePath).Some? && openError.None?
      ensures unsavedChanges == !ok
      ensures !ok ==> disk.files == old(disk.files)
      ensures ok ==>
                var path := filePath.value;
                var existing := if path in old(disk.files) then Some(old(disk.files)[path]) else None;
                disk.files == old(disk.files)[path := Appended(existing, [managerName, date, conversationId, summary])]
    {
      if filePath.None? || openError.Some? {
        unsavedChanges := true;
        return false;
      }
      var path := filePath.value;
      var row := [managerName, date, conversationId, summary];
      if path in disk.files {
        disk.files := disk.files[path := disk.files[path] + [row]];
      } else {
        disk.files := disk.files[path := [Header, row]];
      }
      unsavedChanges := false;
      ok := true;
    }

    /** `read_entries`: the entries of the selected file; no file selected, a
      missing file or an empty one give none. */
    method ReadEntries(disk: Disk) returns (entries: seq<Row>)
      ensures filePath.None? || filePath.value !in disk.files ==> entries == []
      ensures filePath.Some? && filePath.value in disk.files && IsLedger(disk.files[filePath.value]) ==>
                [Header] + entries == disk.files[filePath.value]
    {
      if filePath.None? || filePath.value !in disk.files {
        return [];
      }
      entries := Entries(disk.files[filePath.value]);
    }

    method HasUnsavedChanges() returns (b: bool)
      ensures b == unsavedChanges
    {
      b := unsavedChanges;
    }
  }
}
