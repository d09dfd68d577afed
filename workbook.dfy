/** The sheet store: a workbook that either does not exist yet or maps sheet
    names to tables (index.py: ensure_workbook, read_sheet, write_sheet,
    append_row, log). The file lock is reduced to whether it was acquired. */
module Workbook {
  import opened Schema
  import opened Rows
  import opened Tables

  type Sheets = map<string, Table>

  /** How taking the workbook's file lock ended: held, or given up after the timeout. */
  datatype Lock = Acquired | TimedOut

  /** Header-only sheets for the given layout entries, written in order. */
  function Headers(layout: seq<(string, seq<string>)>): Sheets
  {
    if layout == [] then map[]
    else
      var last := layout[|layout| - 1];
      Headers(layout[..|layout| - 1])[last.0 := Table(last.1, [])]
  }

  /** The sheets of a newly created workbook. */
  function InitialSheets(): Sheets
  {
    Headers(Layout)
  }

  /** The sheets after ensure_workbook: untouched if the workbook exists, else the initial ones. */
  function Ensured(present: bool, sheets: Sheets): Sheets
  {
    if present then sheets else InitialSheets()
  }

  /** The table read_sheet returns from an existing workbook. */
  function ReadFrom(sheets: Sheets, name: string): Table
  {
    if name in sheets then sheets[name] else Empty
  }

  /** The sheets after write_sheet's locked write of t into sheet name. */
  function WriteTo(sheets: Sheets, name: string, t: Table, lock: Lock): Sheets
  {
    if lock == Acquired then sheets[name := t] else sheets
  }

  /** The sheets after append_row of r to sheet name. */
  function Appended(sheets: Sheets, name: string, r: Row, lock: Lock): Sheets
  {
    WriteTo(sheets, name, Concat(ReadFrom(sheets, name), r), lock)
  }

  /** The names of a layout, each given once. */
  predicate DistinctNames(layout: seq<(string, seq<string>)>)
  {
    forall i, j :: 0 <= i < j < |layout| ==> layout[i].0 != layout[j].0
  }

  /** Headers creates one sheet per layout entry, with that entry's columns and no rows. */
  lemma {:induction false} HeadersShape(layout: seq<(string, seq<string>)>)
    requires DistinctNames(layout)
    ensures Headers(layout).Keys == set p | p in layout :: p.0
    ensures forall p :: p in layout ==> Headers(layout)[p.0] == Table(p.1, [])
  {
    if layout != [] {
      var init, last := layout[..|layout| - 1], layout[|layout| - 1];
      assert DistinctNames(init);
      HeadersShape(init);
      forall p | p in init ensures p.0 != last.0 {
        var k :| 0 <= k < |init| && init[k] == p;
        assert layout[k] == p;
      }
      assert layout == init + [last];
    }
  }

  /** ensure_workbook creates exactly the seven sheets, each with its fixed
      columns and zero rows. */
  lemma InitialSheetsShape()
    ensures InitialSheets().Keys == {Companies, Engineers, Sites, Assignments, FundAllocations, Expenses, AuditLog}
    ensures forall p :: p in Layout ==> ReadFrom(InitialSheets(), p.0) == Table(p.1, [])
  {
    assert DistinctNames(Layout);
    HeadersShape(Layout);
  }

  /** Calling ensure_workbook twice is the same as calling it once. */
  lemma EnsureIdempotent(present: bool, sheets: Sheets)
    ensures Ensured(true, Ensured(present, sheets)) == Ensured(present, sheets)
    ensures present ==> Ensured(present, sheets) == sheets
  {
  }

  /** write_sheet replaces exactly one sheet when it holds the lock and nothing
      when it times out; a later read returns what was written. */
  lemma WriteFrame(sheets: Sheets, name: string, t: Table, lock: Lock, other: string)
    ensures lock == Acquired ==> ReadFrom(WriteTo(sheets, name, t, lock), name) == t
    ensures other != name ==> ReadFrom(WriteTo(sheets, name, t, lock), other) == ReadFrom(sheets, other)
    ensures lock == TimedOut ==> WriteTo(sheets, name, t, lock) == sheets
  {
  }

  /** read_sheet of a sheet the workbook lacks gives the empty table, not an error. */
  lemma ReadMissing(sheets: Sheets, name: string)
    requires name !in sheets
    ensures ReadFrom(sheets, name) == Empty && |ReadFrom(sheets, name).rows| == 0
  {
  }

  /** append_row keeps the old rows in order and adds exactly one, touching no
      other sheet; on timeout nothing changes. */
  lemma AppendFrame(sheets: Sheets, name: string, r: Row, lock: Lock, other: string)
    ensures lock == Acquired ==>
      var before, after := ReadFrom(sheets, name).rows, ReadFrom(Appended(sheets, name, r, lock), name).rows;
      |after| == |before| + 1 && after[..|before|] == before && after[|before|] == r
    ensures other != name ==> ReadFrom(Appended(sheets, name, r, lock), other) == ReadFrom(sheets, other)
    ensures lock == TimedOut ==> Appended(sheets, name, r, lock) == sheets
  {
    var t := Concat(ReadFrom(sheets, name), r);
    WriteFrame(sheets, name, t, lock, other);
  }

  /** The workbook file, held in memory. `present` is whether the file exists. */
  class Store {
    var present: bool
    var sheets: Sheets

    /** A store whose workbook has not been created yet. */
    constructor ()
      ensures !present && sheets == map[]
    {
      present, sheets := false, map[];
    }

    /** Creates every sheet of the layout, header only, if the workbook does not exist. */
    method EnsureWorkbook()
      modifies this
      ensures present && sheets == Ensured(old(present), old(sheets))
    {
      if !present {
        var created: Sheets := map[];
        for i := 0 to |Layout|
          invariant created == Headers(Layout[..i])
        {
          var (name, columns) := Layout[i];
          assert Layout[..i + 1][..i] == Layout[..i];
          created := created[name := Table(columns, [])];
        }
        assert Layout[..|Layout|] == Layout;
        sheets, present := created, true;
      }
    }

    /** The named sheet, or the empty table when the workbook has no such sheet. */
    method ReadSheet(name: string) returns (t: Table)
      modifies this
      ensures present && sheets == Ensured(old(present), old(sheets))
      ensures t == ReadFrom(sheets, name)
    {
      EnsureWorkbook();
      if name in sheets {
        t := sheets[name];
      } else {
        t := Empty;
      }
    }

    /** Replaces the named sheet with t when the lock is acquired. The workbook
        is created before the lock is taken, so that part happens on timeout too. */
    method WriteSheet(name: string, t: Table, lock: Lock)
      modifies this
      ensures present && sheets == WriteTo(Ensured(old(present), old(sheets)), name, t, lock)
      ensures old(present) && lock == TimedOut ==> sheets == old(sheets)
    {
      EnsureWorkbook();
      if lock == Acquired {
        sheets := sheets[name := t];
      }
    }

    /** Reads the sheet, adds r after its last row and writes the sheet back. */
    method AppendRow(name: string, r: Row, lock: Lock)
      modifies this
      ensures present && sheets == Appended(Ensured(old(present), old(sheets)), name, r, lock)
    {
      var t := ReadSheet(name);
      t := Concat(t, r);
      WriteSheet(name, t, lock);
    }

    /** Appends one audit entry, stamped with a fresh log id and the current time. */
    method Log(action: string, objectType: string, objectId: string, user: string, details: string,
               stamp: Stamp, lock: Lock)
      modifies this
      ensures present
      ensures sheets == Appended(Ensured(old(present), old(sheets)), AuditLog,
                                 NewAuditEntry(stamp, action, objectType, objectId, user, details), lock)
    {
      AppendRow(AuditLog, NewAuditEntry(stamp, action, objectType, objectId, user, details), lock);
    }
  }
}
