/** The report-level spreadsheet operations: access validation, reading a
    range as a header row plus data rows, appending one report row, and the
    duplicate check that compares new rows with existing ones by their first
    two cells (date and URL). */
module SheetsIntegration {
  import opened Values
  import opened JsString
  import opened SheetsApi

  /** `{ success, canRead, canWrite?, error? }`. */
  datatype AccessResult = AccessResult(success: bool, canRead: bool, canWrite: Option<bool>, error: Option<string>)

  /** `validateSpreadsheetAccess`, given the metadata request's reply. */
  function ValidateSpreadsheetAccess(reply: MetadataReply): (r: AccessResult)
    ensures r.success <==> reply.MetadataOk?
    ensures r.canRead == r.success
    ensures r.success ==> r.canWrite == Some(true) && r.error.None?
    ensures !r.success ==>
      r.canWrite.None? && r.error == Some("Spreadsheet access validation failed: " + reply.error)
  {
    match reply
    case MetadataOk => AccessResult(true, true, Some(true), None)
    case MetadataFailed(e) => AccessResult(false, false, None, Some("Spreadsheet access validation failed: " + e))
  }

  /** `{ headers, rows }`. */
  datatype ParsedData = ParsedData(headers: seq<string>, rows: Grid)

  const ReadReportPrefix := "Failed to read existing report: "

  /** The values a successful read returned, `[]` when the field is absent. */
  function ReadValues(read: ReadReply): Grid
    requires read.ReadOk?
  {
    read.values.GetOr([])
  }

  /** `readExistingReport`: the first row is the header, the rest are data. */
  function ReadExistingReport(read: ReadReply): (r: Result<ParsedData>)
    ensures read.ReadFailed? <==> r.Err?
    ensures read.ReadFailed? ==> r.error == ReadReportPrefix + read.error
    ensures read.ReadOk? && |ReadValues(read)| == 0 ==> r.value == ParsedData([], [])
    ensures read.ReadOk? && |ReadValues(read)| > 0 ==>
      [r.value.headers] + r.value.rows == ReadValues(read)
  {
    match read
    case ReadFailed(e) => Err(ReadReportPrefix + e)
    case ReadOk(_) =>
      var values := ReadValues(read);
      if |values| == 0 then Ok(ParsedData([], []))
      else
        assert [values[0]] + values[1..] == values;
        Ok(ParsedData(values[0], values[1..]))
  }

  /** A report's date, URL, title and content, in column order. */
  datatype ReportData = ReportData(date: string, url: string, title: string, content: string)

  /** The `appendData` call `appendNewReport` makes and what it reports. */
  datatype AppendAttempt = AppendAttempt(call: WriteCall, result: Result<int>)

  /** `appendNewReport`: one row `[date, url, title, content]`; the reported
      count is `updatedRows || 0`. */
  function AppendNewReport(range: string, report: ReportData, reply: AppendReply): (a: AppendAttempt)
    ensures a.call.range == range && |a.call.values| == 1
    ensures a.call.values[0] == [report.date, report.url, report.title, report.content]
    ensures a.result.Ok? <==> reply.AppendOk?
    ensures reply.AppendOk? && reply.updatedRows.Some? ==> a.result.value == reply.updatedRows.value
    ensures reply.AppendOk? && reply.updatedRows.None? ==> a.result.value == 0
    ensures reply.AppendFailed? ==> a.result.error == "Failed to append new report: " + reply.error
  {
    var call := WriteCall(range, [[report.date, report.url, report.title, report.content]]);
    match reply
    case AppendOk(n) => AppendAttempt(call, Ok(n.GetOr(0)))
    case AppendFailed(e) => AppendAttempt(call, Err("Failed to append new report: " + e))
  }

  /** `${row[k]}`: a missing cell prints as `undefined`. */
  function CellText(row: seq<string>, k: nat): string {
    if k < |row| then row[k] else "undefined"
  }

  /** The string key `${row[0]}-${row[1]}` the duplicate check compares. */
  function RowKey(row: seq<string>): string {
    CellText(row, 0) + "-" + CellText(row, 1)
  }

  /** `{ isValid, conflicts }`. */
  datatype IntegrityResult = IntegrityResult(isValid: bool, conflicts: seq<string>)

  function ConflictMessage(index: nat, row: seq<string>): string {
    "Row " + NatToString(index + 1) + ": Duplicate entry detected for "
      + CellText(row, 0) + " - " + CellText(row, 1)
  }

  /** The keys of the existing data rows (the header row is not one of them). */
  function ExistingKeys(existing: Grid): (keys: set<string>)
    requires |existing| > 0
    ensures forall k :: k in keys <==> exists r | r in existing[1..] :: RowKey(r) == k
  {
    set r | r in existing[1..] :: RowKey(r)
  }

  /** The conflict messages for `rows[from..]`, numbered by position. */
  function Conflicts(keys: set<string>, rows: Grid, from: nat): (c: seq<string>)
    requires from <= |rows|
    ensures |c| <= |rows| - from
    ensures |c| == 0 <==> forall i | from <= i < |rows| :: RowKey(rows[i]) !in keys
    decreases |rows| - from
  {
    if from == |rows| then []
    else if RowKey(rows[from]) in keys then [ConflictMessage(from, rows[from])] + Conflicts(keys, rows, from + 1)
    else Conflicts(keys, rows, from + 1)
  }

  /** Every new row whose key is taken is reported, by its 1-based number. */
  lemma {:induction false} ConflictsReportEachRow(keys: set<string>, rows: Grid, from: nat, i: nat)
    requires from <= i < |rows|
    ensures RowKey(rows[i]) in keys <==> ConflictMessage(i, rows[i]) in Conflicts(keys, rows, from)
    decreases |rows| - from
  {
    if from < i {
      ConflictsReportEachRow(keys, rows, from + 1, i);
      if RowKey(rows[from]) in keys {
        MessageNamesRow(from, rows[from], i, rows[i]);
      }
    } else {
      if RowKey(rows[i]) !in keys && ConflictMessage(i, rows[i]) in Conflicts(keys, rows, from + 1) {
        ConflictsAfter(keys, rows, from + 1, i, ConflictMessage(i, rows[i]));
      }
    }
  }

  /** `idx` lists, in strictly increasing order, exactly the rows from
      `from` on whose key is taken. */
  predicate TakenRowsAre(keys: set<string>, rows: Grid, from: nat, idx: seq<nat>) {
    && (forall t | 0 <= t < |idx| :: from <= idx[t] < |rows|)
    && (forall s, t | 0 <= s < t < |idx| :: idx[s] < idx[t])
    && (forall i | from <= i < |rows| :: RowKey(rows[i]) in keys <==> i in idx)
  }

  /** The first entry of a list of positions in `[from, end)` lies there. */
  lemma FirstInRange(idx: seq<nat>, from: nat, end: nat)
    requires forall t | 0 <= t < |idx| :: from <= idx[t] < end
    ensures |idx| > 0 ==> from <= idx[0] < end
  {
  }

  /** No row lies at or past the end. */
  lemma TakenEmpty(keys: set<string>, rows: Grid, from: nat, idx: seq<nat>)
    requires from == |rows| && TakenRowsAre(keys, rows, from, idx)
    ensures idx == []
  {
    FirstInRange(idx, from, |rows|);
  }

  /** When the row at `from` is taken, it heads the list, and the rest of
      the list enumerates the taken rows after it. */
  lemma TakenHead(keys: set<string>, rows: Grid, from: nat, idx: seq<nat>)
    requires from < |rows| && RowKey(rows[from]) in keys && TakenRowsAre(keys, rows, from, idx)
    ensures |idx| > 0 && idx[0] == from && TakenRowsAre(keys, rows, from + 1, idx[1..])
  {
    assert from in idx;
    var z :| 0 <= z < |idx| && idx[z] == from;
    assert idx[0] <= idx[z];
    var rest := idx[1..];
    forall i | from + 1 <= i < |rows| ensures RowKey(rows[i]) in keys <==> i in rest {
      if i in idx {
        var w :| 0 <= w < |idx| && idx[w] == i;
        assert rest[w - 1] == i;
      }
    }
    forall t | 0 <= t < |rest| ensures from + 1 <= rest[t] < |rows| {
      assert idx[0] < idx[t + 1];
    }
  }

  /** When the row at `from` is not taken, the list enumerates the taken
      rows after it. */
  lemma TakenSkip(keys: set<string>, rows: Grid, from: nat, idx: seq<nat>)
    requires from < |rows| && RowKey(rows[from]) !in keys && TakenRowsAre(keys, rows, from, idx)
    ensures TakenRowsAre(keys, rows, from + 1, idx)
  {
    forall t | 0 <= t < |idx| ensures from + 1 <= idx[t] {
      assert idx[t] != from;
    }
  }

  /** The messages are exactly one per row whose key is taken, in row
      order: the t-th message names the t-th such row. */
  lemma {:induction false} ConflictsInOrder(keys: set<string>, rows: Grid, from: nat, idx: seq<nat>)
    requires from <= |rows| && TakenRowsAre(keys, rows, from, idx)
    ensures |Conflicts(keys, rows, from)| == |idx|
    ensures forall t | 0 <= t < |idx| :: Conflicts(keys, rows, from)[t] == ConflictMessage(idx[t], rows[idx[t]])
    decreases |rows| - from
  {
    if from == |rows| {
      TakenEmpty(keys, rows, from, idx);
    } else if RowKey(rows[from]) in keys {
      TakenHead(keys, rows, from, idx);
      var c := Conflicts(keys, rows, from);
      var rest := Conflicts(keys, rows, from + 1);
      ConflictsInOrder(keys, rows, from + 1, idx[1..]);
      assert c == [ConflictMessage(from, rows[from])] + rest;
      forall t | 0 < t < |idx| ensures c[t] == ConflictMessage(idx[t], rows[idx[t]]) {
        assert c[t] == rest[t - 1] && idx[1..][t - 1] == idx[t];
      }
    } else {
      TakenSkip(keys, rows, from, idx);
      ConflictsInOrder(keys, rows, from + 1, idx);
    }
  }

  /** Every message in `Conflicts(keys, rows, from)` names a row at `from` or later. */
  lemma {:induction false} ConflictsAfter(keys: set<string>, rows: Grid, from: nat, i: nat, m: string)
    requires from <= |rows| && i < from && m in Conflicts(keys, rows, from)
    ensures m != ConflictMessage(i, rows[i])
    decreases |rows| - from
  {
    if from < |rows| {
      if RowKey(rows[from]) in keys && m == ConflictMessage(from, rows[from]) {
        MessageNamesRow(from, rows[from], i, rows[i]);
      } else {
        ConflictsAfter(keys, rows, from + 1, i, m);
      }
    }
  }

  /** Messages for different row numbers differ. */
  lemma MessageNamesRow(a: nat, ra: seq<string>, b: nat, rb: seq<string>)
    requires a != b
    ensures ConflictMessage(a, ra) != ConflictMessage(b, rb)
  {
    var na := NatToString(a + 1);
    var nb := NatToString(b + 1);
    var tail := ": Duplicate entry detected for ";
    var ma := "Row " + na + tail + CellText(ra, 0) + " - " + CellText(ra, 1);
    var mb := "Row " + nb + tail + CellText(rb, 0) + " - " + CellText(rb, 1);
    if ma == mb {
      var xs := tail + CellText(ra, 0) + " - " + CellText(ra, 1);
      var ys := tail + CellText(rb, 0) + " - " + CellText(rb, 1);
      assert ma == "Row " + na + xs;
      assert mb == "Row " + nb + ys;
      DigitsBeforeColon(na, xs, nb, ys);
      NatToStringInjective(a + 1, b + 1);
    }
  }

  /** A digit run followed by a colon is read back unambiguously. */
  lemma DigitsBeforeColon(x: string, xs: string, y: string, ys: string)
    requires AllDigits(x) && AllDigits(y) && |xs| > 0 && |ys| > 0 && xs[0] == ':' && ys[0] == ':'
    requires "Row " + x + xs == "Row " + y + ys
    ensures x == y
  {
    var s := "Row " + x + xs;
    assert forall j | 0 <= j < |x| :: s[4 + j] == x[j];
    assert forall j | 0 <= j < |y| :: s[4 + j] == y[j];
    assert s[4 + |x|] == ':' && s[4 + |y|] == ':';
    assert |x| == |y|;
  }

  /** `ensureDataIntegrity`: a new row conflicts when its key equals the key
      of an existing data row. */
  function EnsureDataIntegrity(existing: Grid, newRows: Grid): (r: IntegrityResult)
    ensures |existing| == 0 ==> r == IntegrityResult(true, [])
    ensures r.isValid <==> |r.conflicts| == 0
    ensures |existing| > 0 ==>
      (r.isValid <==> forall i | 0 <= i < |newRows| :: RowKey(newRows[i]) !in ExistingKeys(existing))
  {
    if |existing| == 0 then IntegrityResult(true, [])
    else
      var conflicts := Conflicts(ExistingKeys(existing), newRows, 0);
      IntegrityResult(|conflicts| == 0, conflicts)
  }

  /** The header row never takes part in the comparison. */
  lemma IntegrityIgnoresHeader(existing: Grid, header: seq<string>, newRows: Grid)
    requires |existing| > 0
    ensures EnsureDataIntegrity(existing, newRows)
      == EnsureDataIntegrity([header] + existing[1..], newRows)
  {
    assert ([header] + existing[1..])[1..] == existing[1..];
  }

  /** A conflict is reported for row `i` exactly when some existing data row
      has the same key. */
  lemma IntegrityReportsRow(existing: Grid, newRows: Grid, i: nat)
    requires |existing| > 0 && i < |newRows|
    ensures ConflictMessage(i, newRows[i]) in EnsureDataIntegrity(existing, newRows).conflicts
      <==> exists r | r in existing[1..] :: RowKey(r) == RowKey(newRows[i])
  {
    ConflictsReportEachRow(ExistingKeys(existing), newRows, 0, i);
  }

  /** The result lists one message per new row whose key an existing data
      row has, in the order of the new rows and numbered from 1. */
  lemma IntegrityConflictsInOrder(existing: Grid, newRows: Grid, idx: seq<nat>)
    requires |existing| > 0
    requires forall t | 0 <= t < |idx| :: idx[t] < |newRows|
    requires forall s, t | 0 <= s < t < |idx| :: idx[s] < idx[t]
    requires forall i | 0 <= i < |newRows| ::
      (exists r | r in existing[1..] :: RowKey(r) == RowKey(newRows[i])) <==> i in idx
    ensures |EnsureDataIntegrity(existing, newRows).conflicts| == |idx|
    ensures forall t | 0 <= t < |idx| ::
      EnsureDataIntegrity(existing, newRows).conflicts[t] == ConflictMessage(idx[t], newRows[idx[t]])
  {
    ConflictsInOrder(ExistingKeys(existing), newRows, 0, idx);
  }

  /** Two rows are the same entry when their first two cells agree. */
  predicate SameEntry(a: seq<string>, b: seq<string>) {
    CellText(a, 0) == CellText(b, 0) && CellText(a, 1) == CellText(b, 1)
  }

  /** The string key cannot tell `("a-b", "c")` from `("a", "b-c")`: a new
      row is reported as a duplicate of an entry it does not repeat. */
  lemma RowKeyCollision()
    ensures var existing := [["date", "url"], ["a-b", "c"]];
      var newRows := [["a", "b-c"]];
      && !SameEntry(newRows[0], existing[1])
      && !EnsureDataIntegrity(existing, newRows).isValid
  {
    var existing := [["date", "url"], ["a-b", "c"]];
    var newRows := [["a", "b-c"]];
    assert RowKey(existing[1]) == "a-b-c" == RowKey(newRows[0]);
    assert existing[1] in existing[1..];
    assert RowKey(newRows[0]) in ExistingKeys(existing);
  }

  /** The duplicate check as its comment describes it: a new row conflicts
      when an existing data row has the same date and the same URL. */
  function EnsureDataIntegrityByEntry(existing: Grid, newRows: Grid): (r: IntegrityResult)
    ensures |existing| == 0 ==> r == IntegrityResult(true, [])
    ensures r.isValid <==> |r.conflicts| == 0
    ensures |existing| > 0 ==> (r.isValid <==>
      forall i, j | 0 <= i < |newRows| && 1 <= j < |existing| :: !SameEntry(newRows[i], existing[j]))
  {
    if |existing| == 0 then IntegrityResult(true, [])
    else
      var conflicts := EntryConflicts(existing, newRows, 0);
      IntegrityResult(|conflicts| == 0, conflicts)
  }

  /** Some existing data row repeats `row`'s date and URL. */
  predicate Repeats(existing: Grid, row: seq<string>) {
    exists j | 1 <= j < |existing| :: SameEntry(row, existing[j])
  }

  function EntryConflicts(existing: Grid, rows: Grid, from: nat): (c: seq<string>)
    requires from <= |rows|
    ensures |c| == 0 <==> forall i | from <= i < |rows| :: !Repeats(existing, rows[i])
    decreases |rows| - from
  {
    if from == |rows| then []
    else if Repeats(existing, rows[from]) then [ConflictMessage(from, rows[from])] + EntryConflicts(existing, rows, from + 1)
    else EntryConflicts(existing, rows, from + 1)
  }

  /** Equal entries have equal keys, so the corrected check reports no more
      than the string-key check does. */
  lemma ByEntryReportsFewer(existing: Grid, newRows: Grid)
    requires !EnsureDataIntegrityByEntry(existing, newRows).isValid
    ensures !EnsureDataIntegrity(existing, newRows).isValid
  {
    var i, j :| 0 <= i < |newRows| && 1 <= j < |existing| && SameEntry(newRows[i], existing[j]);
    assert existing[j] in existing[1..];
    assert RowKey(newRows[i]) in ExistingKeys(existing);
  }

  /** On the colliding rows the corrected check accepts the new row. */
  lemma ByEntryAcceptsCollision()
    ensures EnsureDataIntegrityByEntry([["date", "url"], ["a-b", "c"]], [["a", "b-c"]]).isValid
  {
    var existing := [["date", "url"], ["a-b", "c"]];
    var newRows := [["a", "b-c"]];
    assert !SameEntry(newRows[0], existing[1]);
  }
}
