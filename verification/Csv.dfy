/**
 The CSV export of mentor calls, and a reader for section 2 of RFC 4180 that
 knows nothing of how the file was written.
 */
module Csv {
  import opened Common
  import opened Numbers

  type Record = seq<string>

  // ------------------------------------------------------------ the writer

  predicate Special(c: char) {
    c == ',' || c == '"' || c == '\n' || c == '\r'
  }

  predicate Bare(s: string) {
    forall i | 0 <= i < |s| :: !Special(s[i])
  }

  function Doubled(s: string): string {
    if s == "" then "" else (if s[0] == '"' then "\"\"" else [s[0]]) + Doubled(s[1..])
  }

  /** `csv_field`. */
  function Field(s: string): string {
    if Bare(s) then s else "\"" + (Doubled(s) + "\"")
  }

  /** The rest of a row after its first field. */
  function MoreFields(fields: Record): string {
    if fields == [] then "" else "," + (Field(fields[0]) + MoreFields(fields[1..]))
  }

  function Row(fields: Record): string
    requires fields != []
  {
    Field(fields[0]) + MoreFields(fields[1..])
  }

  function File(rows: seq<Record>): string
    requires forall i | 0 <= i < |rows| :: rows[i] != []
  {
    if rows == [] then "" else Row(rows[0]) + ("\r\n" + File(rows[1..]))
  }

  // ------------------------------------------------------------ the reader of RFC 4180

  function BareEnd(s: string): (n: nat)
    ensures n <= |s|
    ensures n < |s| ==> Special(s[n])
    ensures forall i | 0 <= i < n :: !Special(s[i])
  {
    if s == "" || Special(s[0]) then 0 else 1 + BareEnd(s[1..])
  }

  /** After an opening quote: the text up to the closing one, two quotes standing for one. */
  function Quoted(s: string): (r: Option<(string, string)>)
    ensures r.Some? ==> |r.value.1| < |s|
    decreases |s|
  {
    if s == "" then None
    else if s[0] != '"' then
      match Quoted(s[1..])
      case None => None
      case Some((text, rest)) => Some(([s[0]] + text, rest))
    else if |s| > 1 && s[1] == '"' then
      match Quoted(s[2..])
      case None => None
      case Some((text, rest)) => Some(("\"" + text, rest))
    else Some(("", s[1..]))
  }

  predicate StartsWithComma(s: string) {
    s != "" && s[0] == ','
  }

  predicate StartsWithCrLf(s: string) {
    |s| >= 2 && s[0] == '\r' && s[1] == '\n'
  }

  function ReadField(s: string): (r: Option<(string, string)>)
    ensures r.Some? ==> |r.value.1| <= |s|
  {
    if s != "" && s[0] == '"' then Quoted(s[1..])
    else Some((s[..BareEnd(s)], s[BareEnd(s)..]))
  }

  function ReadRecord(s: string): (r: Option<(Record, string)>)
    ensures r.Some? ==> |r.value.1| < |s|
    decreases |s|
  {
    match ReadField(s)
    case None => None
    case Some((field, rest)) =>
      if StartsWithCrLf(rest) then Some(([field], rest[2..]))
      else if StartsWithComma(rest) then
        match ReadRecord(rest[1..])
        case None => None
        case Some((fields, after)) => Some(([field] + fields, after))
      else None
  }

  function ReadFile(s: string): Option<seq<Record>>
    decreases |s|
  {
    if s == "" then Some([])
    else
      match ReadRecord(s)
      case None => None
      case Some((record, rest)) =>
        match ReadFile(rest)
        case None => None
        case Some(records) => Some([record] + records)
  }

  // ------------------------------------------------------------ the round trip

  /** What may follow a field. */
  predicate EndsField(rest: string) {
    StartsWithComma(rest) || StartsWithCrLf(rest)
  }

  lemma {:induction false} DoubledReads(s: string, rest: string)
    requires rest != "" && rest[0] != '"'
    ensures Quoted(Doubled(s) + ("\"" + rest)) == Some((s, rest))
  {
    var all := Doubled(s) + ("\"" + rest);
    if s == "" {
      assert all == "\"" + rest;
    } else {
      DoubledReads(s[1..], rest);
      var k := if s[0] == '"' then 2 else 1;
      assert all[k..] == Doubled(s[1..]) + ("\"" + rest);
      assert s == [s[0]] + s[1..];
    }
  }

  lemma {:induction false} BareReads(s: string, rest: string)
    requires Bare(s) && rest != "" && Special(rest[0])
    ensures BareEnd(s + rest) == |s|
  {
    if s != "" {
      assert (s + rest)[1..] == s[1..] + rest;
      BareReads(s[1..], rest);
    } else {
      assert s + rest == rest;
    }
  }

  lemma {:induction false} BareFieldReads(s: string, rest: string)
    requires Bare(s) && EndsField(rest)
    ensures ReadField(s + rest) == Some((s, rest))
  {
    var all := s + rest;
    BareReads(s, rest);
    assert all[..|s|] == s && all[|s|..] == rest;
    assert all[0] != '"';
  }

  lemma {:induction false} QuotedFieldReads(s: string, rest: string)
    requires EndsField(rest)
    ensures ReadField("\"" + (Doubled(s) + "\"") + rest) == Some((s, rest))
  {
    var all := "\"" + (Doubled(s) + "\"") + rest;
    assert all[1..] == Doubled(s) + ("\"" + rest);
    DoubledReads(s, rest);
  }

  lemma {:induction false} FieldReads(s: string, rest: string)
    requires EndsField(rest)
    ensures ReadField(Field(s) + rest) == Some((s, rest))
  {
    hide EndsField, ReadField, Doubled;
    if Bare(s) {
      BareFieldReads(s, rest);
    } else {
      QuotedFieldReads(s, rest);
    }
  }

  lemma Regroup(a: string, b: string, c: string, d: string)
    ensures a + ("," + (b + c)) + d == a + ("," + (b + c + d))
    ensures ("," + (b + c + d))[1..] == b + c + d
  {}

  lemma {:induction false} FieldsRead(first: string, more: Record, rest: string)
    ensures ReadRecord(Field(first) + MoreFields(more) + ("\r\n" + rest)) == Some(([first] + more, rest))
    decreases more
  {
    hide Field, ReadField;
    var end := "\r\n" + rest;
    if more == [] {
      assert Field(first) + MoreFields(more) + end == Field(first) + end;
      FieldReads(first, end);
      assert end[2..] == rest && [first] + more == [first];
    } else {
      var b, c := Field(more[0]), MoreFields(more[1..]);
      Regroup(Field(first), b, c, end);
      var tail := "," + (b + c + end);
      FieldReads(first, tail);
      FieldsRead(more[0], more[1..], rest);
      assert [more[0]] + more[1..] == more;
    }
  }

  /** Whatever the fields contain, reading gives back exactly the rows. */
  lemma {:induction false} FileReadsBack(rows: seq<Record>)
    requires forall i | 0 <= i < |rows| :: rows[i] != []
    ensures ReadFile(File(rows)) == Some(rows)
  {
    hide Field, MoreFields, ReadRecord;
    if rows != [] {
      FileReadsBack(rows[1..]);
      FieldsRead(rows[0][0], rows[0][1..], File(rows[1..]));
      assert [rows[0][0]] + rows[0][1..] == rows[0];
      assert [rows[0]] + rows[1..] == rows;
    }
  }

  // ------------------------------------------------------------ calls

  /** A call as the daemon reports it; the cost is the printed number. */
  datatype Call = Call(
    callId: string, startedAt: string, sessionId: string, sessionTitle: Option<string>, workspaceId: Option<string>,
    agentId: string, kind: string, model: string, effort: Option<string>, status: string, stopReason: Option<string>,
    input: nat, output: nat, cacheRead: nat, cacheCreation: nat, costUsd: Option<string>, totalMs: Option<nat>,
    requestEventId: string)

  const COLUMNS: Record := [
    "call_id", "started_at", "session_id", "session_title", "workspace_id", "agent_id", "kind", "model", "effort",
    "status", "stop_reason", "input", "output", "cache_read", "cache_creation", "cost_usd", "total_ms",
    "request_event_id"
  ]

  function OrEmpty(v: Option<string>): string {
    if v.Some? then v.value else ""
  }

  function Fields(c: Call): (r: Record)
    ensures |r| == |COLUMNS|
  {
    [
      c.callId, c.startedAt, c.sessionId, OrEmpty(c.sessionTitle), OrEmpty(c.workspaceId), c.agentId, c.kind, c.model,
      OrEmpty(c.effort), c.status, OrEmpty(c.stopReason), Digits(c.input), Digits(c.output), Digits(c.cacheRead),
      Digits(c.cacheCreation), OrEmpty(c.costUsd), if c.totalMs.Some? then Digits(c.totalMs.value) else "",
      c.requestEventId
    ]
  }

  function Table(calls: seq<Call>): (r: seq<Record>)
    ensures |r| == |calls| + 1
    ensures forall i | 0 <= i < |r| :: |r[i]| == |COLUMNS|
  {
    [COLUMNS] + seq(|calls|, i requires 0 <= i < |calls| => Fields(calls[i]))
  }

  function MoreParts(parts: Record): string {
    if parts == [] then "" else "," + (parts[0] + MoreParts(parts[1..]))
  }

  /** `join(",")`. */
  function Join(parts: Record): string {
    if parts == [] then "" else parts[0] + MoreParts(parts[1..])
  }

  function Printed(fields: Record): Record {
    seq(|fields|, i requires 0 <= i < |fields| => Field(fields[i]))
  }

  lemma {:induction false} MorePrinted(fields: Record)
    ensures MoreParts(Printed(fields)) == MoreFields(fields)
  {
    if fields != [] {
      assert Printed(fields)[1..] == Printed(fields[1..]);
      MorePrinted(fields[1..]);
    }
  }

  lemma {:induction false} RowJoins(fields: Record)
    requires fields != []
    ensures Join(Printed(fields)) == Row(fields)
  {
    assert Printed(fields)[1..] == Printed(fields[1..]);
    MorePrinted(fields[1..]);
  }

  lemma FirstColumnsAreBare()
    ensures Bare("call_id") && Bare("started_at") && Bare("session_id") && Bare("session_title") && Bare("workspace_id")
  {}

  lemma MiddleColumnsAreBare()
    ensures Bare("agent_id") && Bare("kind") && Bare("model") && Bare("effort") && Bare("status") && Bare("stop_reason")
  {}

  lemma TokenColumnsAreBare()
    ensures Bare("input") && Bare("output") && Bare("cache_read") && Bare("cache_creation")
  {}

  lemma LastColumnsAreBare()
    ensures Bare("cost_usd") && Bare("total_ms") && Bare("request_event_id")
  {}

  /** Column names need no quotes. */
  lemma ColumnsAreBare()
    ensures Printed(COLUMNS) == COLUMNS
  {
    hide Bare, Special, Doubled;
    FirstColumnsAreBare();
    MiddleColumnsAreBare();
    TokenColumnsAreBare();
    LastColumnsAreBare();
    assert forall i | 0 <= i < |COLUMNS| :: Bare(COLUMNS[i]);
  }

  lemma {:induction false} NextRow(out: string, rows: seq<Record>, i: nat)
    requires i < |rows| && forall k | 0 <= k < |rows| :: rows[k] != []
    ensures out + File(rows[i..]) == out + Row(rows[i]) + "\r\n" + File(rows[i + 1..])
  {
    assert rows[i..][1..] == rows[i + 1..];
  }

  lemma TableRows(calls: seq<Call>)
    ensures Table(calls)[0] == COLUMNS
    ensures forall i | 0 <= i < |calls| :: Table(calls)[i + 1] == Fields(calls[i])
  {}

  method CallRow(c: Call) returns (row: string)
    ensures row == Row(Fields(c))
  {
    hide Fields, Row;
    RowJoins(Fields(c));
    row := Join(Printed(Fields(c)));
  }

  method HeaderRow() returns (row: string)
    ensures row == Row(COLUMNS)
  {
    hide Row;
    ColumnsAreBare();
    RowJoins(COLUMNS);
    row := Join(COLUMNS);
  }

  /** `calls_csv`: the header line, then one line a call. */
  method CallsCsv(calls: seq<Call>) returns (out: string)
    ensures out == File(Table(calls))
    ensures ReadFile(out) == Some(Table(calls))
  {
    hide Row, Fields, ReadFile, Table, File;
    ghost var rows := Table(calls);
    TableRows(calls);
    var row := HeaderRow();
    NextRow("", rows, 0);
    assert rows[0..] == rows && "" + File(rows) == File(rows);
    out := "" + row + "\r\n";
    for i := 0 to |calls|
      invariant out + File(rows[i + 1..]) == File(rows)
    {
      row := CallRow(calls[i]);
      NextRow(out, rows, i + 1);
      out := out + row + "\r\n";
    }
    FileReadsBack(rows);
    NoRows(out, rows);
  }

  lemma NoRows(out: string, rows: seq<Record>)
    requires forall k | 0 <= k < |rows| :: rows[k] != []
    ensures out + File(rows[|rows|..]) == out
  {}
}
