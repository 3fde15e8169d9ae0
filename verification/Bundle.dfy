/**
 Exporting a trace as a bundle under a redaction pass, and what the importer and
 the replay checker then find. A blob's name is the hash of its content, so a
 rewritten blob is renamed, and every reference to it must follow.
 */
module Bundle {
  import opened Common
  import opened Framing
  import opened Json

  type Bytes = seq<Byte>
  type Id = string
  type Hash = Bytes -> Id
  type Blobs = map<Id, Bytes>

  const MENTOR_REQUEST := "mentor.request"
  const BLOB_REF := "$blob"
  const REQUEST_HASH := "request_hash"
  const BYTES := "bytes"
  const REDACTED := "redacted"
  const I64_MAX: nat := 0x7FFF_FFFF_FFFF_FFFF

  datatype BlobRow = BlobRow(id: Id, size: nat, mediaType: string, pruned: bool)

  datatype Event = Event(id: string, kind: string, blobId: Option<Id>, payload: Value)

  datatype Call = Call(requestEventId: string, requestBytes: Option<nat>)

  /** A redaction pass with its state; `value` is free to change any string, and only strings. */
  datatype Pass<!S> = Pass(blob: (S, Bytes, string) -> (S, Option<Bytes>), value: (S, Value) -> (S, Value))

  ghost predicate KeepsShape<S(!new)>(pass: Pass<S>) {
    forall state, v :: SameShape(v, pass.value(state, v).1)
  }

  ghost predicate ContentAddressed(blobs: Blobs, hash: Hash) {
    forall id | id in blobs :: hash(blobs[id]) == id
  }

  ghost predicate CollisionFree(hash: Hash) {
    forall a, b | hash(a) == hash(b) :: a == b
  }

  function Renamed(blobMap: map<Id, Id>, id: Id): Id {
    if id in blobMap then blobMap[id] else id
  }

  // ------------------------------------------------------------ blobs

  ghost predicate DistinctIds(rows: seq<BlobRow>) {
    forall i, j | 0 <= i < j < |rows| :: rows[i].id != rows[j].id
  }

  /** `write_blob`: a second write of the same id is a no-op. */
  function WriteBlob(dir: Blobs, id: Id, bytes: Bytes): Blobs {
    if id in dir then dir else dir[id := bytes]
  }

  /** The row has no body to copy. */
  predicate Missing(row: BlobRow, store: Blobs) {
    row.pruned || row.id !in store
  }

  /** What the pass says of a blob, in some state of the run. */
  ghost predicate BlobOutcome<S(!new)>(pass: Option<Pass<S>>, row: BlobRow, bytes: Bytes, r: Option<Bytes>) {
    match pass
    case None => r.None?
    case Some(p) => exists state :: p.blob(state, bytes, row.mediaType).1 == r
  }

  /** A row before and after: pruned if it has no body, else copied, or renamed with its body as the pass says. */
  ghost predicate RowOk<S(!new)>(
      pass: Option<Pass<S>>, row: BlobRow, after: BlobRow, store: Blobs, dir: Blobs, blobMap: map<Id, Id>, hash: Hash)
  {
    if Missing(row, store) then after == row.(pruned := true) && row.id !in blobMap
    else after.id in dir && exists r :: BlobOutcome(pass, row, store[row.id], r) && RowAfter(row, after, r, blobMap, hash)
  }

  predicate RowAfter(row: BlobRow, after: BlobRow, r: Option<Bytes>, blobMap: map<Id, Id>, hash: Hash) {
    match r
    case None => after == row && row.id !in blobMap
    case Some(bytes) =>
      after == row.(id := hash(bytes), size := |bytes|) && row.id in blobMap && blobMap[row.id] == after.id
  }

  /** The first `n` rows have been copied or rewritten. */
  ghost predicate Copied<S(!new)>(
      pass: Option<Pass<S>>, before: seq<BlobRow>, rows: seq<BlobRow>, n: nat, store: Blobs, dir: Blobs,
      blobMap: map<Id, Id>, newSize: map<Id, nat>, hash: Hash)
  {
    && |rows| == |before| && n <= |rows|
    && ContentAddressed(dir, hash)
    && (forall i | 0 <= i < n :: RowOk(pass, before[i], rows[i], store, dir, blobMap, hash))
    && (forall i | n <= i < |rows| :: rows[i] == before[i] && rows[i].id !in blobMap)
    && (forall from | from in blobMap :: MapOk(blobMap[from], newSize, hash, dir) && from in store)
  }

  /** A new id is the hash of some content, whose size is on record, and has a file. */
  ghost predicate MapOk(id: Id, newSize: map<Id, nat>, hash: Hash, dir: Blobs) {
    id in dir && id in newSize && exists bytes :: hash(bytes) == id && |bytes| == newSize[id]
  }

  /** Files and renamings that come later leave a row as it is. */
  lemma {:induction false} RowStaysOk<S(!new)>(
      pass: Option<Pass<S>>, row: BlobRow, after: BlobRow, store: Blobs, dir: Blobs, blobMap: map<Id, Id>, hash: Hash,
      dir': Blobs, blobMap': map<Id, Id>)
    requires RowOk(pass, row, after, store, dir, blobMap, hash)
    requires dir.Keys <= dir'.Keys
    requires row.id in blobMap' <==> row.id in blobMap
    requires row.id in blobMap ==> blobMap'[row.id] == blobMap[row.id]
    ensures RowOk(pass, row, after, store, dir', blobMap', hash)
  {
    hide BlobOutcome;
    if !Missing(row, store) {
      var r :| BlobOutcome(pass, row, store[row.id], r) && RowAfter(row, after, r, blobMap, hash);
      assert RowAfter(row, after, r, blobMap', hash);
    }
  }

  lemma {:induction false} CopyPlain<S(!new)>(
      pass: Option<Pass<S>>, before: seq<BlobRow>, rows: seq<BlobRow>, n: nat, store: Blobs, dir: Blobs,
      blobMap: map<Id, Id>, newSize: map<Id, nat>, hash: Hash)
    requires Copied(pass, before, rows, n, store, dir, blobMap, newSize, hash) && n < |rows|
    requires ContentAddressed(store, hash) && !Missing(rows[n], store)
    requires BlobOutcome(pass, rows[n], store[rows[n].id], None)
    ensures Copied(pass, before, rows, n + 1, store, WriteBlob(dir, rows[n].id, store[rows[n].id]), blobMap, newSize, hash)
  {
    hide BlobOutcome, RowOk;
    var dir' := WriteBlob(dir, rows[n].id, store[rows[n].id]);
    forall i | 0 <= i < n ensures RowOk(pass, before[i], rows[i], store, dir', blobMap, hash) {
      RowStaysOk(pass, before[i], rows[i], store, dir, blobMap, hash, dir', blobMap);
    }
    NewRowOk(pass, rows[n], rows[n], None, store, dir', blobMap, hash);
    forall from | from in blobMap ensures MapOk(blobMap[from], newSize, hash, dir') {
      assert MapOk(blobMap[from], newSize, hash, dir);
    }
  }

  lemma NewRowOk<S(!new)>(
      pass: Option<Pass<S>>, row: BlobRow, after: BlobRow, r: Option<Bytes>,
      store: Blobs, dir: Blobs, blobMap: map<Id, Id>, hash: Hash)
    requires !Missing(row, store) && after.id in dir
    requires BlobOutcome(pass, row, store[row.id], r) && RowAfter(row, after, r, blobMap, hash)
    ensures RowOk(pass, row, after, store, dir, blobMap, hash)
  {}

  lemma {:induction false} CopyRewritten<S(!new)>(
      pass: Option<Pass<S>>, before: seq<BlobRow>, rows: seq<BlobRow>, n: nat, store: Blobs, dir: Blobs,
      blobMap: map<Id, Id>, newSize: map<Id, nat>, hash: Hash, bytes: Bytes)
    requires Copied(pass, before, rows, n, store, dir, blobMap, newSize, hash) && n < |rows| && DistinctIds(before)
    requires !Missing(rows[n], store) && BlobOutcome(pass, rows[n], store[rows[n].id], Some(bytes))
    ensures var id := hash(bytes);
            Copied(pass, before, rows[n := rows[n].(id := id, size := |bytes|)], n + 1, store,
                   WriteBlob(dir, id, bytes), blobMap[rows[n].id := id], newSize[id := |bytes|], hash)
  {
    hide BlobOutcome, RowOk;
    var id := hash(bytes);
    var dir', map', size' := WriteBlob(dir, id, bytes), blobMap[rows[n].id := id], newSize[id := |bytes|];
    var after := rows[n].(id := id, size := |bytes|);
    forall i | 0 <= i < n ensures RowOk(pass, before[i], rows[i], store, dir', map', hash) {
      RowStaysOk(pass, before[i], rows[i], store, dir, blobMap, hash, dir', map');
    }
    NewRowOk(pass, rows[n], after, Some(bytes), store, dir', map', hash);
    forall from | from in map' ensures MapOk(map'[from], size', hash, dir') && from in store {
      if map'[from] != id {
        assert MapOk(blobMap[from], newSize, hash, dir);
      }
    }
  }

  lemma {:induction false} CopySkipped<S(!new)>(
      pass: Option<Pass<S>>, before: seq<BlobRow>, rows: seq<BlobRow>, n: nat, store: Blobs, dir: Blobs,
      blobMap: map<Id, Id>, newSize: map<Id, nat>, hash: Hash)
    requires Copied(pass, before, rows, n, store, dir, blobMap, newSize, hash) && n < |rows| && Missing(rows[n], store)
    ensures Copied(pass, before, rows[n := rows[n].(pruned := true)], n + 1, store, dir, blobMap, newSize, hash)
  {
    hide BlobOutcome;
  }

  lemma CopyStarts<S(!new)>(pass: Option<Pass<S>>, rows: seq<BlobRow>, store: Blobs, hash: Hash)
    ensures Copied(pass, rows, rows, 0, store, map[], map[], map[], hash)
  {}

  /** What becomes of a row's id, and when it ends up pruned. */
  lemma RowsRenamed<S(!new)>(
      pass: Option<Pass<S>>, before: seq<BlobRow>, rows: seq<BlobRow>, store: Blobs, dir: Blobs,
      blobMap: map<Id, Id>, newSize: map<Id, nat>, hash: Hash)
    requires Copied(pass, before, rows, |rows|, store, dir, blobMap, newSize, hash)
    ensures |rows| == |before|
    ensures forall i | 0 <= i < |rows| ::
              && rows[i].id == Renamed(blobMap, before[i].id)
              && (rows[i].pruned <==> Missing(before[i], store))
              && (!rows[i].pruned ==> rows[i].id in dir)
              && (rows[i].pruned ==> before[i].id !in blobMap)
  {
    hide BlobOutcome;
    forall i | 0 <= i < |rows|
      ensures rows[i].id == Renamed(blobMap, before[i].id)
      ensures rows[i].pruned <==> Missing(before[i], store)
      ensures !rows[i].pruned ==> rows[i].id in dir
      ensures rows[i].pruned ==> before[i].id !in blobMap
    {
      assert RowOk(pass, before[i], rows[i], store, dir, blobMap, hash);
    }
  }

  // ------------------------------------------------------------ duplicate rows

  ghost predicate HasRow(rows: seq<BlobRow>, id: Id) {
    exists i | 0 <= i < |rows| :: rows[i].id == id
  }

  /** The row is in the list, and no earlier one has its id. */
  ghost predicate FirstOfId(rows: seq<BlobRow>, row: BlobRow) {
    exists i | 0 <= i < |rows| :: rows[i] == row && forall k | 0 <= k < i :: rows[k].id != row.id
  }

  /** Sorting, which keeps the order of equal ids, and removing neighbours leaves the first row of each id. */
  ghost predicate Deduped(before: seq<BlobRow>, after: seq<BlobRow>) {
    && DistinctIds(after)
    && (forall id :: HasRow(after, id) <==> HasRow(before, id))
    && (forall i | 0 <= i < |after| :: FirstOfId(before, after[i]))
  }

  lemma FirstStays(rows: seq<BlobRow>, more: BlobRow, row: BlobRow)
    requires FirstOfId(rows, row)
    ensures FirstOfId(rows + [more], row)
  {
    var i :| 0 <= i < |rows| && rows[i] == row && forall k | 0 <= k < i :: rows[k].id != row.id;
    assert (rows + [more])[i] == row;
  }

  lemma NewIsFirst(rows: seq<BlobRow>, row: BlobRow)
    requires !HasRow(rows, row.id)
    ensures FirstOfId(rows + [row], row)
  {
    assert (rows + [row])[|rows|] == row;
  }

  lemma RowAdded(rows: seq<BlobRow>, row: BlobRow)
    ensures forall id :: HasRow(rows + [row], id) <==> HasRow(rows, id) || id == row.id
  {
    forall id ensures HasRow(rows + [row], id) <==> HasRow(rows, id) || id == row.id {
      if HasRow(rows, id) {
        var i :| 0 <= i < |rows| && rows[i].id == id;
        assert (rows + [row])[i].id == id;
      }
      assert (rows + [row])[|rows|] == row;
    }
  }

  method Dedup(rows: seq<BlobRow>) returns (kept: seq<BlobRow>)
    ensures Deduped(rows, kept)
  {
    kept := [];
    for i := 0 to |rows|
      invariant Deduped(rows[..i], kept)
    {
      assert rows[..i + 1] == rows[..i] + [rows[i]];
      RowAdded(rows[..i], rows[i]);
      RowAdded(kept, rows[i]);
      forall k | 0 <= k < |kept| ensures FirstOfId(rows[..i + 1], kept[k]) {
        FirstStays(rows[..i], rows[i], kept[k]);
      }
      if forall k | 0 <= k < |kept| :: kept[k].id != rows[i].id {
        NewIsFirst(rows[..i], rows[i]);
        kept := kept + [rows[i]];
      }
    }
    assert rows[..|rows|] == rows;
  }

  // ------------------------------------------------------------ which bodies arrive

  /** The bundle gives the importer a file for the id. */
  ghost predicate HasFile(rows: seq<BlobRow>, id: Id) {
    exists i | 0 <= i < |rows| :: rows[i].id == id && !rows[i].pruned
  }

  /** The files of a store that had `into` after the import: those of the rows that are not pruned come in. */
  ghost function ImportFiles(into: Blobs, rows: seq<BlobRow>, dir: Blobs): Blobs {
    (map id | id in dir && HasFile(rows, id) :: dir[id]) + into
  }

  /** Among the original rows, one without a body has the id, and nothing before it is renamed to it or has it. */
  predicate Lost(before: seq<BlobRow>, store: Blobs, blobMap: map<Id, Id>, id: Id) {
    exists j | 0 <= j < |before| ::
      before[j].id == id && Missing(before[j], store) && forall i | 0 <= i < j :: Renamed(blobMap, before[i].id) != id
  }

  /** An id of the bundle has a file for the importer exactly when no row without a body came first. */
  lemma {:induction false} FileUnlessLost<S(!new)>(
      pass: Option<Pass<S>>, before: seq<BlobRow>, rows: seq<BlobRow>, kept: seq<BlobRow>, store: Blobs, dir: Blobs,
      blobMap: map<Id, Id>, newSize: map<Id, nat>, hash: Hash, id: Id)
    requires Copied(pass, before, rows, |rows|, store, dir, blobMap, newSize, hash) && Deduped(rows, kept)
    requires HasRow(kept, id)
    ensures HasFile(kept, id) <==> !Lost(before, store, blobMap, id)
    ensures HasFile(kept, id) ==> id in dir
  {
    RowsRenamed(pass, before, rows, store, dir, blobMap, newSize, hash);
    hide Copied, Lost, Missing;
    var k :| 0 <= k < |kept| && kept[k].id == id;
    assert FirstOfId(rows, kept[k]);
    var f :| 0 <= f < |rows| && rows[f] == kept[k] && forall i | 0 <= i < f :: rows[i].id != id;
    assert HasFile(kept, id) <==> !rows[f].pruned;
    FirstIsLostIff(before, rows, store, blobMap, f);
  }

  lemma {:induction false} FirstIsLostIff(
      before: seq<BlobRow>, rows: seq<BlobRow>, store: Blobs, blobMap: map<Id, Id>, f: nat)
    requires |rows| == |before| && f < |rows| && forall i | 0 <= i < f :: rows[i].id != rows[f].id
    requires forall i | 0 <= i < |rows| :: rows[i].id == Renamed(blobMap, before[i].id)
    requires forall i | 0 <= i < |rows| :: rows[i].pruned <==> Missing(before[i], store)
    requires forall i | 0 <= i < |rows| && rows[i].pruned :: before[i].id !in blobMap
    ensures rows[f].pruned <==> Lost(before, store, blobMap, rows[f].id)
  {
    hide Missing;
    var id := rows[f].id;
    if Lost(before, store, blobMap, id) {
      var j :| 0 <= j < |before|
        && before[j].id == id && Missing(before[j], store) && forall i | 0 <= i < j :: Renamed(blobMap, before[i].id) != id;
      assert rows[j].id == id;
      assert j == f;
    }
    if rows[f].pruned {
      assert before[f].id == id;
    }
  }

  // ------------------------------------------------------------ events

  /** `remap_blob_refs`. */
  function Remap(v: Value, blobMap: map<Id, Id>): Value {
    match v
    case Obj(fields) =>
      Obj(map k | k in fields ::
        if k == BLOB_REF && fields[k].Str? then Str(Renamed(blobMap, fields[k].s)) else Remap(fields[k], blobMap))
    case Arr(items) => Arr(seq(|items|, i requires 0 <= i < |items| => Remap(items[i], blobMap)))
    case _ => v
  }

  /** References that name no rewritten blob are left alone. */
  lemma {:induction false} RemapOfNothing(v: Value)
    ensures Remap(v, map[]) == v
  {
    match v
    case Obj(fields) =>
      forall k | k in fields ensures Remap(fields[k], map[]) == fields[k] { RemapOfNothing(fields[k]); }
      assert Remap(v, map[]).fields == fields;
    case Arr(items) =>
      forall i | 0 <= i < |items| ensures Remap(items[i], map[]) == items[i] { RemapOfNothing(items[i]); }
      assert Remap(v, map[]).items == items;
    case _ =>
  }

  /** Everything is where it was, each blob reference follows its blob, and every other string stays. */
  lemma {:induction false} ReferencesFollow(v: Value, blobMap: map<Id, Id>, steps: seq<Step>)
    ensures Below(Remap(v, blobMap), steps).Some? <==> Below(v, steps).Some?
    ensures Below(v, steps).Some? && Below(v, steps).value.Str? ==>
              var s := Below(v, steps).value.s;
              Below(Remap(v, blobMap), steps) ==
              Some(Str(if steps != [] && steps[|steps| - 1] == Field(BLOB_REF) then Renamed(blobMap, s) else s))
    ensures Below(v, steps).Some? && !Below(v, steps).value.Str? ==>
              Below(Remap(v, blobMap), steps) == Some(Remap(Below(v, steps).value, blobMap))
    decreases |steps|
  {
    if steps != [] && Child(v, steps[0]).Some? {
      var below := Child(v, steps[0]).value;
      if below.Str? {
        assert |steps| > 1 ==> Child(below, steps[1]).None?;
        assert |steps| == 1 ==> steps[1..] == [];
      } else {
        assert Child(Remap(v, blobMap), steps[0]) == Some(Remap(below, blobMap));
        ReferencesFollow(below, blobMap, steps[1..]);
      }
    }
  }

  /** Nothing but strings changes. */
  lemma {:induction false} RemapKeepsShape(v: Value, blobMap: map<Id, Id>)
    ensures SameShape(v, Remap(v, blobMap))
  {
    match v
    case Obj(fields) =>
      forall k | k in fields ensures SameShape(fields[k], Remap(v, blobMap).fields[k]) { RemapKeepsShape(fields[k], blobMap); }
    case Arr(items) =>
      forall i | 0 <= i < |items| ensures SameShape(items[i], Remap(items[i], blobMap)) { RemapKeepsShape(items[i], blobMap); }
    case _ =>
  }

  predicate IsTouched(e: Event, blobMap: map<Id, Id>) {
    e.kind == MENTOR_REQUEST && e.blobId.Some? && e.blobId.value in blobMap
  }

  function SizeOf(newSize: map<Id, nat>, id: Id): nat {
    if id in newSize then newSize[id] else 0
  }

  /** The payload of a request whose body was rewritten. */
  function Restated(payload: Value, id: Id, size: nat): Value
    requires payload.Obj?
  {
    Obj(payload.fields[REQUEST_HASH := Str(id)][BYTES := Num(size as real)][REDACTED := Bool(true)])
  }

  /** The event that is written, from its redacted payload. */
  function Rewritten(e: Event, payload: Value, blobMap: map<Id, Id>, newSize: map<Id, nat>): Event
    requires e.kind == MENTOR_REQUEST ==> payload.Obj?
  {
    var blobId := if e.blobId.Some? then Some(Renamed(blobMap, e.blobId.value)) else None;
    var stated := if IsTouched(e, blobMap) then Restated(payload, blobId.value, SizeOf(newSize, blobId.value)) else payload;
    Event(e.id, e.kind, blobId, Remap(stated, blobMap))
  }

  /** The trace writes request payloads as objects. */
  predicate RequestsAreObjects(events: seq<Event>) {
    forall i | 0 <= i < |events| && events[i].kind == MENTOR_REQUEST :: events[i].payload.Obj?
  }

  /** What the pass makes of a payload, in some state of the run. */
  ghost predicate PayloadOutcome<S(!new)>(pass: Option<Pass<S>>, before: Value, after: Value) {
    match pass
    case None => after == before
    case Some(p) => exists state :: p.value(state, before).1 == after
  }

  ghost predicate PayloadsFrom<S(!new)>(pass: Option<Pass<S>>, events: seq<Event>, payloads: seq<Value>) {
    |payloads| == |events| && forall i | 0 <= i < |events| :: PayloadOutcome(pass, events[i].payload, payloads[i])
  }

  ghost predicate EventOk(e: Event, payload: Value, after: Event, blobMap: map<Id, Id>, newSize: map<Id, nat>) {
    && SameShape(e.payload, payload)
    && (e.kind == MENTOR_REQUEST ==> payload.Obj?)
    && after == Rewritten(e, payload, blobMap, newSize)
  }

  /** Every event is its rewriting from some payload of the same shape. */
  ghost predicate EventsRewritten(
      before: seq<Event>, after: seq<Event>, payloads: seq<Value>, blobMap: map<Id, Id>, newSize: map<Id, nat>)
  {
    && |before| == |after| == |payloads|
    && forall i | 0 <= i < |before| :: EventOk(before[i], payloads[i], after[i], blobMap, newSize)
  }

  function Touched(events: seq<Event>, blobMap: map<Id, Id>): nat {
    if events == [] then 0
    else Touched(events[..|events| - 1], blobMap) + if IsTouched(events[|events| - 1], blobMap) then 1 else 0
  }

  lemma {:induction false} TouchedNoneIff(events: seq<Event>, blobMap: map<Id, Id>)
    ensures Touched(events, blobMap) == 0 <==> forall i | 0 <= i < |events| :: !IsTouched(events[i], blobMap)
  {
    if events != [] {
      var init := events[..|events| - 1];
      TouchedNoneIff(init, blobMap);
      assert forall i | 0 <= i < |init| :: init[i] == events[i];
    }
  }

  ghost predicate SizesRecorded(
      events: seq<Event>, sizes: map<string, nat>, blobMap: map<Id, Id>, newSize: map<Id, nat>)
  {
    && (forall i | 0 <= i < |events| && IsTouched(events[i], blobMap) :: events[i].id in sizes)
    && (forall id | id in sizes :: exists i :: IsSizeOf(events, i, id, sizes[id], blobMap, newSize))
  }

  predicate IsSizeOf(events: seq<Event>, i: int, id: string, size: nat, blobMap: map<Id, Id>, newSize: map<Id, nat>) {
    && 0 <= i < |events| && events[i].id == id && IsTouched(events[i], blobMap)
    && size == SizeOf(newSize, blobMap[events[i].blobId.value])
  }

  // ------------------------------------------------------------ the export

  class Export<S(!new)> {
    const hash: Hash
    const pass: Option<Pass<S>>
    var state: S
    var blobs: seq<BlobRow>
    var events: seq<Event>
    var calls: seq<Call>
    var dir: Blobs
    var blobMap: map<Id, Id>
    var newSize: map<Id, nat>
    var requestSizes: map<string, nat>
    var touched: nat

    constructor (hash: Hash, pass: Option<Pass<S>>, state: S, blobs: seq<BlobRow>, events: seq<Event>, calls: seq<Call>)
      ensures this.hash == hash && this.pass == pass && this.blobs == blobs && this.events == events && this.calls == calls
      ensures dir == map[] && blobMap == map[] && newSize == map[] && requestSizes == map[] && touched == 0
    {
      this.hash, this.pass, this.state, this.blobs, this.events, this.calls := hash, pass, state, blobs, events, calls;
      dir, blobMap, newSize, requestSizes, touched := map[], map[], map[], map[], 0;
    }

    method RedactBlob(row: BlobRow, bytes: Bytes) returns (r: Option<Bytes>)
      modifies this`state
      ensures BlobOutcome(pass, row, bytes, r)
    {
      r := None;
      if pass.Some? {
        var (next, redacted) := pass.value.blob(state, bytes, row.mediaType);
        state, r := next, redacted;
      }
    }

    method RedactPayload(payload: Value) returns (r: Value)
      requires pass.Some? ==> KeepsShape(pass.value)
      modifies this`state
      ensures PayloadOutcome(pass, payload, r) && SameShape(payload, r)
    {
      SameIsSameShape(payload);
      r := payload;
      if pass.Some? {
        var (next, redacted) := pass.value.value(state, payload);
        state, r := next, redacted;
      }
    }

    /** Blobs first: their new ids go into the rows. */
    method CopyBlobs(store: Blobs)
      requires DistinctIds(blobs) && ContentAddressed(store, hash)
      requires dir == map[] && blobMap == map[] && newSize == map[]
      modifies this`state, this`blobs, this`dir, this`blobMap, this`newSize
      ensures Copied(pass, old(blobs), blobs, |blobs|, store, dir, blobMap, newSize, hash)
      ensures pass.None? ==> blobMap == map[]
    {
      hide ContentAddressed, DistinctIds, Copied;
      ghost var before := blobs;
      CopyStarts(pass, blobs, store, hash);
      for i := 0 to |blobs|
        invariant |blobs| == |before| && Copied(pass, before, blobs, i, store, dir, blobMap, newSize, hash)
        invariant pass.None? ==> blobMap == map[]
      {
        var b := blobs[i];
        if b.pruned || b.id !in store {
          CopySkipped(pass, before, blobs, i, store, dir, blobMap, newSize, hash);
          blobs := blobs[i := b.(pruned := true)];
          continue;
        }
        var bytes := store[b.id];
        var redacted := RedactBlob(b, bytes);
        if redacted.Some? {
          var id := hash(redacted.value);
          CopyRewritten(pass, before, blobs, i, store, dir, blobMap, newSize, hash, redacted.value);
          dir := WriteBlob(dir, id, redacted.value);
          blobMap := blobMap[b.id := id];
          newSize := newSize[id := |redacted.value|];
          blobs := blobs[i := b.(id := id, size := |redacted.value|)];
        } else {
          CopyPlain(pass, before, blobs, i, store, dir, blobMap, newSize, hash);
          dir := WriteBlob(dir, b.id, bytes);
        }
      }
    }

    method RewriteEvent(e: Event) returns (after: Event, ghost payload: Value)
      requires e.kind == MENTOR_REQUEST ==> e.payload.Obj?
      requires pass.Some? ==> KeepsShape(pass.value)
      modifies this`state, this`touched, this`requestSizes
      ensures EventOk(e, payload, after, blobMap, newSize)
      ensures touched == old(touched) + if IsTouched(e, blobMap) then 1 else 0
      ensures requestSizes == WithSize(old(requestSizes), e, blobMap, newSize)
      ensures PayloadOutcome(pass, e.payload, payload)
    {
      var stated := RedactPayload(e.payload);
      payload := stated;
      var blobId := e.blobId;
      if blobId.Some? && blobId.value in blobMap {
        blobId := Some(blobMap[blobId.value]);
        if e.kind == MENTOR_REQUEST {
          touched := touched + 1;
          var size := SizeOf(newSize, blobId.value);
          stated := Restated(stated, blobId.value, size);
          requestSizes := requestSizes[e.id := size];
        }
      }
      if blobMap == map[] {
        RemapOfNothing(stated);
      } else {
        stated := Remap(stated, blobMap);
      }
      after := Event(e.id, e.kind, blobId, stated);
    }

    /** Then the events: payloads redacted, ids and references renamed, rewritten requests restated. */
    method RewriteEvents() returns (ghost payloads: seq<Value>)
      requires RequestsAreObjects(events) && touched == 0 && requestSizes == map[]
      requires pass.Some? ==> KeepsShape(pass.value)
      modifies this`state, this`events, this`touched, this`requestSizes
      ensures EventsRewritten(old(events), events, payloads, blobMap, newSize)
      ensures touched == Touched(old(events), blobMap)
      ensures SizesRecorded(old(events), requestSizes, blobMap, newSize)
      ensures PayloadsFrom(pass, old(events), payloads)
    {
      hide EventOk, SizesRecorded, KeepsShape, PayloadOutcome;
      ghost var before := events;
      payloads := [];
      SizesStart(events, blobMap, newSize);
      for i := 0 to |events|
        invariant |events| == |before| && |payloads| == i
        invariant forall k | 0 <= k < i :: EventOk(before[k], payloads[k], events[k], blobMap, newSize)
        invariant forall k | i <= k < |events| :: events[k] == before[k]
        invariant touched == Touched(before[..i], blobMap)
        invariant SizesRecorded(before[..i], requestSizes, blobMap, newSize)
        invariant forall k | 0 <= k < i :: PayloadOutcome(pass, before[k].payload, payloads[k])
      {
        SizeAdded(before, i, requestSizes, blobMap, newSize);
        ghost var payload;
        var after;
        after, payload := RewriteEvent(events[i]);
        events := events[i := after];
        payloads := payloads + [payload];
        assert before[..i + 1][..i] == before[..i];
      }
      assert before[..|before|] == before;
    }

    /** And the calls of rewritten requests carry the new size. */
    method RestateCalls()
      modifies this`calls
      ensures CallsRestated(old(calls), calls, requestSizes)
    {
      ghost var before := calls;
      for i := 0 to |calls|
        invariant |calls| == |before|
        invariant forall k | i <= k < |calls| :: calls[k] == before[k]
        invariant forall k | 0 <= k < i ::
                    calls[k] == if before[k].requestEventId in requestSizes
                                then before[k].(requestBytes := Some(Clamped(requestSizes[before[k].requestEventId])))
                                else before[k]
      {
        if calls[i].requestEventId in requestSizes {
          calls := calls[i := calls[i].(requestBytes := Some(Clamped(requestSizes[calls[i].requestEventId])))];
        }
      }
    }
  }

  /** What a finished export is, given what it started from, `rows` being its blob rows before duplicates went. */
  ghost predicate Exported<S(!new)>(
      blobs: seq<BlobRow>, events: seq<Event>, store: Blobs, x: Export<S>, rows: seq<BlobRow>, payloads: seq<Value>)
    reads x
  {
    && Copied(x.pass, blobs, rows, |rows|, store, x.dir, x.blobMap, x.newSize, x.hash)
    && Deduped(rows, x.blobs)
    && EventsRewritten(events, x.events, payloads, x.blobMap, x.newSize)
    && PayloadsFrom(x.pass, events, payloads)
    && x.touched == Touched(events, x.blobMap)
  }

  /** What the trace store hands to an export. */
  ghost predicate Exportable(blobs: seq<BlobRow>, events: seq<Event>, store: Blobs, hash: Hash) {
    DistinctIds(blobs) && ContentAddressed(store, hash) && EventsNameRows(events, blobs) && RequestsAreObjects(events)
  }

  /** `write_into`, as far as blobs, events and calls go. */
  method WriteInto<S(!new)>(x: Export<S>, store: Blobs) returns (ghost rows: seq<BlobRow>, ghost payloads: seq<Value>)
    requires Exportable(x.blobs, x.events, store, x.hash) && (x.pass.Some? ==> KeepsShape(x.pass.value))
    requires x.dir == map[] && x.blobMap == map[] && x.newSize == map[] && x.requestSizes == map[] && x.touched == 0
    modifies x
    ensures Exported(old(x.blobs), old(x.events), store, x, rows, payloads)
    ensures SizesRecorded(old(x.events), x.requestSizes, x.blobMap, x.newSize)
    ensures CallsRestated(old(x.calls), x.calls, x.requestSizes)
    ensures forall i | 0 <= i < |x.blobs| :: Intact(x.blobs[i], x.dir, x.hash)
    ensures EventsNameRows(x.events, x.blobs)
    ensures x.pass.None? ==> x.blobMap == map[] && x.events == old(x.events)
  {
    hide Copied, Deduped, DistinctIds, EventsRewritten, KeepsShape, PayloadsFrom, SizesRecorded;
    ghost var blobs, events := x.blobs, x.events;
    x.CopyBlobs(store);
    rows := x.blobs;
    RowsRenamed(x.pass, blobs, rows, store, x.dir, x.blobMap, x.newSize, x.hash);
    var kept := Dedup(x.blobs);
    x.blobs := kept;
    ExportIsIntact(x.pass, blobs, rows, kept, store, x.dir, x.blobMap, x.newSize, x.hash);
    payloads := x.RewriteEvents();
    RenamedEventsNameRows(
      x.pass, blobs, rows, kept, store, x.dir, x.blobMap, x.newSize, x.hash, events, x.events, payloads);
    if x.pass.None? {
      PlainEvents(x.pass, events, x.events, payloads, x.newSize);
    }
    x.RestateCalls();
  }

  /** The request's body is among the files, and the event passes the hash stage with it. */
  predicate PassesHashStage(e: Event, files: Blobs, hash: Hash) {
    e.blobId.Some? && e.blobId.value in files && HashStage(e, files[e.blobId.value], hash)
  }

  /** A request whose body was rewritten passes the hash stage after an import, unless its new id belongs to a row without a body. */
  lemma {:induction false} TouchedRequestsPassIff<S(!new)>(
      blobs: seq<BlobRow>, events: seq<Event>, store: Blobs, x: Export<S>, rows: seq<BlobRow>, payloads: seq<Value>,
      into: Blobs, i: nat)
    requires Exportable(blobs, events, store, x.hash) && Exported(blobs, events, store, x, rows, payloads)
    requires CollisionFree(x.hash) && ContentAddressed(into, x.hash)
    requires i < |events| && IsTouched(events[i], x.blobMap)
    ensures x.events[i].blobId.Some?
    ensures var id := x.events[i].blobId.value;
            PassesHashStage(x.events[i], ImportFiles(into, x.blobs, x.dir), x.hash) <==>
            id in into || !Lost(blobs, store, x.blobMap, id)
  {
    assert EventOk(events[i], payloads[i], x.events[i], x.blobMap, x.newSize);
    var id := x.events[i].blobId.value;
    RenamedEventsNameRows(
      x.pass, blobs, rows, x.blobs, store, x.dir, x.blobMap, x.newSize, x.hash, events, x.events, payloads);
    FileUnlessLost(x.pass, blobs, rows, x.blobs, store, x.dir, x.blobMap, x.newSize, x.hash, id);
    CopiedFacts(x.pass, blobs, rows, store, x.dir, x.blobMap, x.newSize, x.hash);
    TouchedRequestsPass(events[i], payloads[i], x.blobMap, x.newSize, x.hash, x.dir);
    var files := ImportFiles(into, x.blobs, x.dir);
    assert id in files <==> id in into || HasFile(x.blobs, id);
    assert id in files ==> files[id] == x.dir[id] by {
      if id in into {
        assert x.hash(into[id]) == id == x.hash(x.dir[id]);
      }
    }
  }

  /** A bundle reported replayable has the original bytes of every request body it has. */
  lemma {:induction false} UntouchedBodies<S(!new)>(
      blobs: seq<BlobRow>, events: seq<Event>, store: Blobs, x: Export<S>, rows: seq<BlobRow>, payloads: seq<Value>, i: nat)
    requires Exportable(blobs, events, store, x.hash) && Exported(blobs, events, store, x, rows, payloads)
    requires CollisionFree(x.hash) && x.touched == 0
    requires i < |events| && events[i].kind == MENTOR_REQUEST
    ensures x.events[i].blobId == events[i].blobId
    ensures events[i].blobId.Some? && events[i].blobId.value in x.dir && events[i].blobId.value in store ==>
              x.dir[events[i].blobId.value] == store[events[i].blobId.value]
  {
    TouchedNoneIff(events, x.blobMap);
    assert EventOk(events[i], payloads[i], x.events[i], x.blobMap, x.newSize);
    CopiedFacts(x.pass, blobs, rows, store, x.dir, x.blobMap, x.newSize, x.hash);
  }

  /** A request that named a body in the store has a body after the import; an untouched one has the same. */
  lemma {:induction false} UntouchedBodyArrives<S(!new)>(
      blobs: seq<BlobRow>, events: seq<Event>, store: Blobs, x: Export<S>, rows: seq<BlobRow>, payloads: seq<Value>,
      into: Blobs, i: nat, j: nat)
    requires Exportable(blobs, events, store, x.hash) && Exported(blobs, events, store, x, rows, payloads)
    requires CollisionFree(x.hash) && ContentAddressed(into, x.hash)
    requires i < |events| && events[i].kind == MENTOR_REQUEST && !IsTouched(events[i], x.blobMap)
    requires j < |blobs| && events[i].blobId == Some(blobs[j].id) && !Missing(blobs[j], store)
    ensures var id, files := blobs[j].id, ImportFiles(into, x.blobs, x.dir);
            x.events[i].blobId == Some(id) && id in files && files[id] == store[id]
  {
    assert EventOk(events[i], payloads[i], x.events[i], x.blobMap, x.newSize);
    var id := blobs[j].id;
    RenamedEventsNameRows(
      x.pass, blobs, rows, x.blobs, store, x.dir, x.blobMap, x.newSize, x.hash, events, x.events, payloads);
    FileUnlessLost(x.pass, blobs, rows, x.blobs, store, x.dir, x.blobMap, x.newSize, x.hash, id);
    CopiedFacts(x.pass, blobs, rows, store, x.dir, x.blobMap, x.newSize, x.hash);
    assert !Lost(blobs, store, x.blobMap, id) by {
      assert DistinctIds(blobs);
    }
    var files := ImportFiles(into, x.blobs, x.dir);
    assert id in files;
    if id in into {
      assert x.hash(into[id]) == id == x.hash(store[id]);
    } else {
      assert x.hash(x.dir[id]) == id == x.hash(store[id]);
    }
  }

  /** What an export states anew in the payload of a request whose body was rewritten. */
  predicate StatedAnew(e: Event, blobMap: map<Id, Id>, steps: seq<Step>) {
    IsTouched(e, blobMap)
    && (steps == [] || steps[0] == Field("request_hash") || steps[0] == Field("bytes") || steps[0] == Field("redacted"))
  }

  lemma RestBelow(payload: Value, id: Id, size: nat, steps: seq<Step>)
    requires payload.Obj? && steps != []
    requires steps[0] != Field("request_hash") && steps[0] != Field("bytes") && steps[0] != Field("redacted")
    ensures Below(Restated(payload, id, size), steps) == Below(payload, steps)
  {
    var stated := Restated(payload, id, size);
    assert Child(stated, steps[0]) == Child(payload, steps[0]);
  }

  /**
   An exported event is the event it was: same id, same kind, a blob if it had
   one, and in its payload everything that the pass left, but for the renamed
   references and what is stated anew of a rewritten request.
   */
  lemma {:induction false} EventsKeepTheRest<S(!new)>(
      blobs: seq<BlobRow>, events: seq<Event>, store: Blobs, x: Export<S>, rows: seq<BlobRow>, payloads: seq<Value>,
      i: nat, steps: seq<Step>)
    requires Exported(blobs, events, store, x, rows, payloads) && i < |events|
    ensures |x.events| == |events| == |payloads| && PayloadOutcome(x.pass, events[i].payload, payloads[i])
    ensures x.events[i].id == events[i].id && x.events[i].kind == events[i].kind
    ensures x.events[i].blobId.Some? <==> events[i].blobId.Some?
    ensures !StatedAnew(events[i], x.blobMap, steps) ==>
              var before, after := Below(payloads[i], steps), Below(x.events[i].payload, steps);
              && (after.Some? <==> before.Some?)
              && (before.Some? && !before.value.Str? && !before.value.Obj? && !before.value.Arr? ==> after == before)
              && (before.Some? && before.value.Str? ==>
                    after == Some(Str(
                      if steps != [] && steps[|steps| - 1] == Field("$blob") then Renamed(x.blobMap, before.value.s)
                      else before.value.s)))
    ensures IsTouched(events[i], x.blobMap) ==>
              && x.events[i].blobId.Some?
              && Below(x.events[i].payload, [Field("request_hash")]) == Some(Str(x.events[i].blobId.value))
              && Below(x.events[i].payload, [Field("redacted")]) == Some(Bool(true))
  {
    var e, after := events[i], x.events[i];
    assert EventOk(e, payloads[i], after, x.blobMap, x.newSize);
    if IsTouched(e, x.blobMap) {
      var id := after.blobId.value;
      var stated := Restated(payloads[i], id, SizeOf(x.newSize, id));
      ReferencesFollow(stated, x.blobMap, steps);
      if steps != [] && !StatedAnew(e, x.blobMap, steps) {
        RestBelow(payloads[i], id, SizeOf(x.newSize, id), steps);
      }
      RemapKeepsMember(stated, x.blobMap, REQUEST_HASH);
      RemapKeepsMember(stated, x.blobMap, REDACTED);
      OneStep(after.payload, "request_hash");
      OneStep(after.payload, "redacted");
    } else {
      ReferencesFollow(payloads[i], x.blobMap, steps);
    }
  }

  lemma OneStep(v: Value, key: string)
    ensures Below(v, [Field(key)]) == Member(v, key)
  {
    assert [Field(key)][1..] == [];
  }

  /** The blob that an event names has, after the export, the bytes of before, or what the pass made of them. */
  lemma {:induction false} EveryBodyFollows<S(!new)>(
      blobs: seq<BlobRow>, events: seq<Event>, store: Blobs, x: Export<S>, rows: seq<BlobRow>, payloads: seq<Value>,
      i: nat, j: nat)
    requires Exportable(blobs, events, store, x.hash) && Exported(blobs, events, store, x, rows, payloads)
    requires CollisionFree(x.hash) && i < |events| && j < |blobs|
    requires events[i].blobId == Some(blobs[j].id) && !Missing(blobs[j], store)
    ensures x.events[i].blobId.Some? && x.events[i].blobId.value in x.dir
    ensures exists r ::
              && BlobOutcome(x.pass, blobs[j], store[blobs[j].id], r)
              && x.dir[x.events[i].blobId.value] == if r.Some? then r.value else store[blobs[j].id]
  {
    var id := blobs[j].id;
    assert EventOk(events[i], payloads[i], x.events[i], x.blobMap, x.newSize);
    assert RowOk(x.pass, blobs[j], rows[j], store, x.dir, x.blobMap, x.hash);
    hide BlobOutcome, Deduped, EventsRewritten, PayloadsFrom, Touched;
    var r :| BlobOutcome(x.pass, blobs[j], store[id], r) && RowAfter(blobs[j], rows[j], r, x.blobMap, x.hash);
    var after := x.events[i].blobId.value;
    assert after == rows[j].id;
    assert x.hash(x.dir[after]) == after;
    assert x.hash(store[id]) == id;
  }

  /** A pass that rewrites every body to the same bytes and leaves the values. */
  function RewritesTo(bytes: Bytes): Pass<()> {
    Pass((s, body, mediaType) => ((), Some(bytes)), (s, v) => ((), v))
  }

  /**
   A rewritten request that does not replay: an earlier row that lost its body
   has the id that the redacted body now gets, and is the one that is kept.
   */
  lemma {:induction false} PrunedRowHidesBody(
      x: Export<()>, body: Bytes, redacted: Bytes, gone: BlobRow, row: BlobRow, e: Event,
      after: seq<BlobRow>, payloads: seq<Value>)
    requires CollisionFree(x.hash) && body != redacted && x.pass == Some(RewritesTo(redacted))
    requires gone == BlobRow(x.hash(redacted), |redacted|, "", true) && row == BlobRow(x.hash(body), |body|, "", false)
    requires e.kind == MENTOR_REQUEST && e.blobId == Some(row.id) && e.payload.Obj?
    requires Exported([gone, row], [e], map[row.id := body], x, after, payloads)
    ensures Exportable([gone, row], [e], map[row.id := body], x.hash)
    ensures !PassesHashStage(x.events[0], ImportFiles(map[], x.blobs, x.dir), x.hash)
  {
    var rows, events, store := [gone, row], [e], map[row.id := body];
    assert row.id != gone.id;
    assert HasRow(rows, row.id) by { assert rows[1].id == row.id; }
    assert RowOk(x.pass, rows[1], after[1], store, x.dir, x.blobMap, x.hash);
    assert x.blobMap[row.id] == gone.id;
    assert Lost(rows, store, x.blobMap, gone.id) by { assert rows[0] == gone; }
    assert EventOk(events[0], payloads[0], x.events[0], x.blobMap, x.newSize);
    hide Exported, Exportable, Lost, ImportFiles, PassesHashStage;
    assert Exportable(rows, events, store, x.hash);
    TouchedRequestsPassIff(rows, events, store, x, after, payloads, map[], 0);
  }

  lemma CopiedFacts<S(!new)>(
      pass: Option<Pass<S>>, before: seq<BlobRow>, rows: seq<BlobRow>, store: Blobs, dir: Blobs,
      blobMap: map<Id, Id>, newSize: map<Id, nat>, hash: Hash)
    requires Copied(pass, before, rows, |rows|, store, dir, blobMap, newSize, hash)
    ensures ContentAddressed(dir, hash)
    ensures forall from | from in blobMap :: MapOk(blobMap[from], newSize, hash, dir) && from in store
  {}

  /** Without a pass the events are written as they are. */
  lemma {:induction false} PlainEvents<S(!new)>(
      pass: Option<Pass<S>>, events: seq<Event>, after: seq<Event>, payloads: seq<Value>, newSize: map<Id, nat>)
    requires pass.None? && EventsRewritten(events, after, payloads, map[], newSize) && PayloadsFrom(pass, events, payloads)
    ensures after == events
  {
    forall i | 0 <= i < |events| ensures after[i] == events[i] {
      assert EventOk(events[i], payloads[i], after[i], map[], newSize);
      assert PayloadOutcome(pass, events[i].payload, payloads[i]);
      RemapOfNothing(payloads[i]);
    }
  }

  /** Exactly the calls with a recorded size have it, clamped. */
  predicate CallsRestated(before: seq<Call>, after: seq<Call>, sizes: map<string, nat>) {
    && |after| == |before|
    && forall i | 0 <= i < |after| ::
         after[i] == if before[i].requestEventId in sizes
                     then before[i].(requestBytes := Some(Clamped(sizes[before[i].requestEventId])))
                     else before[i]
  }

  function Clamped(size: nat): nat {
    if size > I64_MAX then I64_MAX else size
  }

  function WithSize(sizes: map<string, nat>, e: Event, blobMap: map<Id, Id>, newSize: map<Id, nat>): map<string, nat> {
    if IsTouched(e, blobMap) then sizes[e.id := SizeOf(newSize, blobMap[e.blobId.value])] else sizes
  }

  lemma SizesStart(events: seq<Event>, blobMap: map<Id, Id>, newSize: map<Id, nat>)
    ensures SizesRecorded(events[..0], map[], blobMap, newSize)
  {}

  lemma {:induction false} SizeAdded(
      events: seq<Event>, i: nat, sizes: map<string, nat>, blobMap: map<Id, Id>, newSize: map<Id, nat>)
    requires i < |events| && SizesRecorded(events[..i], sizes, blobMap, newSize)
    ensures SizesRecorded(events[..i + 1], WithSize(sizes, events[i], blobMap, newSize), blobMap, newSize)
  {
    var head, after := events[..i + 1], WithSize(sizes, events[i], blobMap, newSize);
    assert forall k | 0 <= k < i :: head[k] == events[..i][k];
    forall id | id in after ensures exists k :: IsSizeOf(head, k, id, after[id], blobMap, newSize) {
      if IsTouched(events[i], blobMap) && id == events[i].id {
        assert IsSizeOf(head, i, id, after[id], blobMap, newSize);
      } else {
        var k :| IsSizeOf(events[..i], k, id, sizes[id], blobMap, newSize);
        assert IsSizeOf(head, k, id, after[id], blobMap, newSize);
      }
    }
  }

  // ------------------------------------------------------------ the importer

  datatype ImportError = BlobMissing(id: Id) | BlobCorrupted(id: Id, actual: Id)

  /** The row's file is there and hashes to its name. */
  predicate Intact(row: BlobRow, dir: Blobs, hash: Hash) {
    row.pruned || (row.id in dir && hash(dir[row.id]) == row.id)
  }

  /** Every blob is checked before anything is written; the first fault is named. */
  method VerifyBlobs(rows: seq<BlobRow>, dir: Blobs, hash: Hash) returns (fault: Option<ImportError>)
    ensures fault.None? <==> forall i | 0 <= i < |rows| :: Intact(rows[i], dir, hash)
    ensures fault.Some? ==>
              exists i | 0 <= i < |rows| ::
                && !Intact(rows[i], dir, hash) && (forall k | 0 <= k < i :: Intact(rows[k], dir, hash))
                && fault.value == if rows[i].id in dir then BlobCorrupted(rows[i].id, hash(dir[rows[i].id]))
                                  else BlobMissing(rows[i].id)
  {
    for i := 0 to |rows|
      invariant forall k | 0 <= k < i :: Intact(rows[k], dir, hash)
    {
      var b := rows[i];
      if b.pruned {
        continue;
      }
      if b.id !in dir {
        assert !Intact(rows[i], dir, hash);
        return Some(BlobMissing(b.id));
      }
      var actual := hash(dir[b.id]);
      if actual != b.id {
        assert !Intact(rows[i], dir, hash);
        return Some(BlobCorrupted(b.id, actual));
      }
    }
    return None;
  }

  /** Whatever the pass rewrote, the importer accepts every blob. */
  lemma {:induction false} ExportIsIntact<S(!new)>(
      pass: Option<Pass<S>>, before: seq<BlobRow>, rows: seq<BlobRow>, kept: seq<BlobRow>, store: Blobs, dir: Blobs,
      blobMap: map<Id, Id>, newSize: map<Id, nat>, hash: Hash)
    requires Copied(pass, before, rows, |rows|, store, dir, blobMap, newSize, hash) && Deduped(rows, kept)
    ensures forall i | 0 <= i < |kept| :: Intact(kept[i], dir, hash)
  {
    RowsRenamed(pass, before, rows, store, dir, blobMap, newSize, hash);
    forall i | 0 <= i < |kept| ensures Intact(kept[i], dir, hash) {
      assert FirstOfId(rows, kept[i]);
    }
  }

  /** Every blob an event names has a row. */
  ghost predicate EventsNameRows(events: seq<Event>, rows: seq<BlobRow>) {
    forall i | 0 <= i < |events| && events[i].blobId.Some? :: HasRow(rows, events[i].blobId.value)
  }

  lemma {:induction false} RenamedEventsNameRows<S(!new)>(
      pass: Option<Pass<S>>, before: seq<BlobRow>, rows: seq<BlobRow>, kept: seq<BlobRow>, store: Blobs, dir: Blobs,
      blobMap: map<Id, Id>, newSize: map<Id, nat>, hash: Hash,
      events: seq<Event>, after: seq<Event>, payloads: seq<Value>)
    requires Copied(pass, before, rows, |rows|, store, dir, blobMap, newSize, hash) && Deduped(rows, kept)
    requires EventsRewritten(events, after, payloads, blobMap, newSize) && EventsNameRows(events, before)
    ensures EventsNameRows(after, kept)
  {
    RowsRenamed(pass, before, rows, store, dir, blobMap, newSize, hash);
    hide Copied;
    forall i | 0 <= i < |after| && after[i].blobId.Some? ensures HasRow(kept, after[i].blobId.value) {
      assert EventOk(events[i], payloads[i], after[i], blobMap, newSize);
      var id := events[i].blobId.value;
      var k :| 0 <= k < |before| && before[k].id == id;
      assert rows[k].id == Renamed(blobMap, id);
      assert HasRow(rows, Renamed(blobMap, id));
    }
  }

  // ------------------------------------------------------------ the replay checker

  function AsU64(v: Option<Value>): Option<nat> {
    if v.Some? && v.value.Num? && v.value.n >= 0.0 && v.value.n == v.value.n.Floor as real then Some(v.value.n.Floor) else None
  }

  /** The hash stage of `check_call`: the body is the blob, and the payload names it. */
  predicate HashStage(e: Event, bytes: Bytes, hash: Hash) {
    var named, size := Member(e.payload, REQUEST_HASH), AsU64(Member(e.payload, BYTES));
    && e.blobId == Some(hash(bytes))
    && (named.Some? && named.value.Str? ==> named.value.s == hash(bytes))
    && (size.Some? ==> size.value == |bytes|)
  }

  datatype HashFault = NotItsBlob(actual: Id) | NamesAnother(named: Id) | SaysOtherSize(size: nat)

  /** The stage itself: the id first, then the recorded hash, then the recorded size. */
  method CheckHashStage(e: Event, bytes: Bytes, hash: Hash) returns (fault: Option<HashFault>)
    requires e.blobId.Some?
    ensures fault.None? <==> HashStage(e, bytes, hash)
    ensures fault.Some? && fault.value.NotItsBlob? <==> e.blobId.value != hash(bytes)
    ensures fault.Some? && fault.value.NamesAnother? <==>
            e.blobId.value == hash(bytes)
            && exists named :: Member(e.payload, "request_hash") == Some(Str(named)) && named != hash(bytes)
    ensures fault.Some? && fault.value.SaysOtherSize? <==>
            e.blobId.value == hash(bytes)
            && (forall named :: Member(e.payload, "request_hash") == Some(Str(named)) ==> named == hash(bytes))
            && exists size: nat :: IsSize(Member(e.payload, "bytes"), size) && size != |bytes|
  {
    var actual := hash(bytes);
    if actual != e.blobId.value {
      return Some(NotItsBlob(actual));
    }
    var named := Member(e.payload, REQUEST_HASH);
    if named.Some? && named.value.Str? && named.value.s != actual {
      return Some(NamesAnother(named.value.s));
    }
    var size := AsU64(Member(e.payload, BYTES));
    WholeNumber(Member(e.payload, BYTES));
    if size.Some? && size.value != |bytes| {
      return Some(SaysOtherSize(size.value));
    }
    return None;
  }

  predicate IsSize(v: Option<Value>, size: nat) {
    v == Some(Num(size as real))
  }

  lemma WholeNumber(v: Option<Value>)
    ensures forall n: nat :: IsSize(v, n) <==> AsU64(v) == Some(n)
  {
    forall n: nat ensures IsSize(v, n) <==> AsU64(v) == Some(n) {
      assert (n as real).Floor == n;
    }
  }

  lemma {:induction false} RemapKeepsMember(payload: Value, blobMap: map<Id, Id>, key: string)
    requires payload.Obj? && key in payload.fields && key != BLOB_REF
    requires !payload.fields[key].Obj? && !payload.fields[key].Arr?
    ensures Member(Remap(payload, blobMap), key) == Some(payload.fields[key])
  {}

  /** A rewritten request is restated so that it passes. */
  lemma {:induction false} TouchedRequestsPass(
      e: Event, payload: Value, blobMap: map<Id, Id>, newSize: map<Id, nat>, hash: Hash, dir: Blobs)
    requires CollisionFree(hash) && ContentAddressed(dir, hash)
    requires IsTouched(e, blobMap) && payload.Obj? && MapOk(blobMap[e.blobId.value], newSize, hash, dir)
    ensures var after := Rewritten(e, payload, blobMap, newSize);
            && after.blobId.value in dir && HashStage(after, dir[after.blobId.value], hash)
            && Member(after.payload, REDACTED) == Some(Bool(true))
  {
    var id := blobMap[e.blobId.value];
    var bytes :| hash(bytes) == id && |bytes| == newSize[id];
    assert bytes == dir[id];
    var stated := Restated(payload, id, SizeOf(newSize, id));
    RemapKeepsMember(stated, blobMap, REQUEST_HASH);
    RemapKeepsMember(stated, blobMap, BYTES);
    RemapKeepsMember(stated, blobMap, REDACTED);
    assert Member(stated, BYTES) == Some(Num(|bytes| as real));
    assert (|bytes| as real).Floor == |bytes|;
  }

  /** A request whose body is as it was still passes if the pass left the hash in its payload alone, and only then. */
  lemma {:induction false} HashKeptIff(
      e: Event, payload: Value, blobMap: map<Id, Id>, newSize: map<Id, nat>, hash: Hash, bytes: Bytes)
    requires e.kind == MENTOR_REQUEST && payload.Obj? && SameShape(e.payload, payload) && !IsTouched(e, blobMap)
    requires HashStage(e, bytes, hash)
    ensures HashStage(Rewritten(e, payload, blobMap, newSize), bytes, hash) <==>
            (var named := Member(e.payload, REQUEST_HASH);
             named.Some? && named.value.Str? ==> Member(payload, REQUEST_HASH) == named)
  {
    var after := Rewritten(e, payload, blobMap, newSize);
    assert e.payload.Obj? && e.payload.fields.Keys == payload.fields.Keys;
    assert after.payload.fields.Keys == payload.fields.Keys;
    NumbersStay(e.payload, payload, blobMap);
    if REQUEST_HASH in payload.fields {
      var was, now := e.payload.fields[REQUEST_HASH], payload.fields[REQUEST_HASH];
      assert SameShape(was, now);
      if was.Str? {
        RemapKeepsMember(payload, blobMap, REQUEST_HASH);
      } else {
        assert !Remap(now, blobMap).Str?;
      }
    }
  }

  lemma {:induction false} NumbersStay(before: Value, payload: Value, blobMap: map<Id, Id>)
    requires before.Obj? && SameShape(before, payload)
    ensures AsU64(Member(Remap(payload, blobMap), BYTES)) == AsU64(Member(before, BYTES))
  {
    if BYTES in before.fields {
      assert SameShape(before.fields[BYTES], payload.fields[BYTES]);
    }
  }
}
