/** The audit log as data: entries, the bytes of the file, the index, and what looking a record up
    through the index means. */
module AuditStore {
  import opened Outcomes
  import opened Bytes
  import opened Json
  import opened JsonText
  import opened Ecdsa

  const PHASE_COMMITMENT := "DECISION_COMMITMENT"
  const PHASE_EXECUTION := "EXECUTION_ATTESTATION"
  const PHASE_SETTLEMENT := "SETTLEMENT_FINALITY"
  const PHASE_ROTATION := "LOG_ROTATION"

  const NEWLINE: byte := 10

  datatype AuditEntry = AuditEntry(
    timestamp: int, phase: string, orderId: string, data: Dict, signature: Dict, quantumProof: Dict)
  {
    function ToJson(): Json {
      Obj(map[
        "timestamp" := Num(timestamp),
        "phase" := Str(phase),
        "order_id" := Str(orderId),
        "data" := data,
        "signature" := signature,
        "quantum_proof" := quantumProof])
    }

    /** The key of the index. */
    function RecordId(): string {
      RecordIdOf(orderId, phase)
    }

    predicate IsMarker() {
      phase == PHASE_ROTATION
    }
  }

  function RecordIdOf(orderId: string, phase: string): string {
    orderId + "_" + phase
  }

  /** `AuditEntry.from_dict`. */
  function FromDict(j: Json): Result<AuditEntry> {
    match (j.Get("timestamp"), j.Get("phase"), j.Get("order_id"), j.Get("data"), j.Get("signature"), j.Get("quantum_proof"))
    case (Some(Num(t)), Some(Str(p)), Some(Str(o)), Some(Obj(d)), Some(Obj(s)), Some(Obj(q))) =>
      Ok(AuditEntry(t, p, o, Obj(d), Obj(s), Obj(q)))
    case _ => Err(CorruptEntry)
  }

  lemma FromDictOfToJson(entry: AuditEntry)
    ensures FromDict(entry.ToJson()) == Ok(entry)
  {
  }

  /** The fields of a record. */
  lemma EntryFields(entry: AuditEntry)
    ensures var j := entry.ToJson();
            && j.Get("timestamp") == Some(Num(entry.timestamp)) && j.Get("phase") == Some(Str(entry.phase))
            && j.Get("order_id") == Some(Str(entry.orderId)) && j.Get("data") == Some(entry.data)
            && j.Get("signature") == Some(entry.signature) && j.Get("quantum_proof") == Some(entry.quantumProof)
            && j.fields.Keys == {"timestamp", "phase", "order_id", "data", "signature", "quantum_proof"}
  {
  }

  /** Record ids as the documentation writes them. */
  lemma RecordIdExamples()
    ensures RecordIdOf("order_001", PHASE_COMMITMENT) == "order_001_DECISION_COMMITMENT"
    ensures RecordIdOf("order_001", PHASE_EXECUTION) == "order_001_EXECUTION_ATTESTATION"
    ensures RecordIdOf("order_001", PHASE_SETTLEMENT) == "order_001_SETTLEMENT_FINALITY"
    ensures RecordIdOf("__system__", PHASE_ROTATION) == "__system___LOG_ROTATION"
  {
  }

  // ----- the file -----

  function LineText(entry: AuditEntry): string {
    Print(entry.ToJson())
  }

  /** The line `_append` writes, with its line break. */
  function LineBytes(entry: AuditEntry): seq<byte> {
    Utf8(LineText(entry)) + [NEWLINE]
  }

  /** The file that holds the lines of some entries and nothing else. */
  function FileBytes(live: seq<AuditEntry>): seq<byte> {
    if live == [] then [] else FileBytes(live[..|live| - 1]) + LineBytes(live[|live| - 1])
  }

  /** Where line i begins. */
  function Offset(live: seq<AuditEntry>, i: nat): nat
    requires i <= |live|
  {
    |FileBytes(live[..i])|
  }

  /** The first position after the line that contains position i. */
  function LineEnd(file: seq<byte>, i: nat): (r: nat)
    requires i <= |file|
    ensures i <= r <= |file|
    decreases |file| - i
  {
    if i == |file| then i else if file[i] == NEWLINE then i + 1 else LineEnd(file, i + 1)
  }

  /** `seek(offset)` and `readline()`. */
  function ReadLine(file: seq<byte>, offset: nat): seq<byte> {
    if offset <= |file| then file[offset..LineEnd(file, offset)] else []
  }

  /** `raw.decode("utf-8")` of a line of ASCII; None for other bytes, which are never written. */
  function DecodeAscii(raw: seq<byte>): Option<string> {
    if forall i :: 0 <= i < |raw| ==> raw[i] < 0x80
    then Some(seq(|raw|, i requires 0 <= i < |raw| => raw[i] as char))
    else None
  }

  /** `json.loads(raw.decode("utf-8"))` of a line. */
  function ReadRecord(raw: seq<byte>): Option<Json> {
    var body := if raw != [] && raw[|raw| - 1] == NEWLINE then raw[..|raw| - 1] else raw;
    match DecodeAscii(body)
    case Some(t) => Loads(t)
    case None => None
  }

  lemma DecodeOfUtf8(t: string)
    requires Printable(t)
    ensures DecodeAscii(Utf8(t)) == Some(t)
    ensures |Utf8(t)| == |t| && forall i :: 0 <= i < |t| ==> Utf8(t)[i] != NEWLINE
  {
    Utf8Ascii(t);
    var r := DecodeAscii(Utf8(t)).value;
    assert r == t;
  }

  /** A line is newline-free apart from its end and is read back as the record it was written for. */
  lemma LineRoundTrip(entry: AuditEntry)
    ensures forall i :: 0 <= i < |LineBytes(entry)| - 1 ==> LineBytes(entry)[i] != NEWLINE
    ensures |LineBytes(entry)| == |LineText(entry)| + 1
    ensures ReadRecord(LineBytes(entry)) == Some(entry.ToJson())
  {
    var t := LineText(entry);
    PrintPrintable(entry.ToJson());
    hide Print, Utf8, DecodeAscii, Loads;
    DecodeOfUtf8(t);
    var raw := LineBytes(entry);
    assert raw[..|raw| - 1] == Utf8(t);
    LoadsOfPrint(entry.ToJson());
  }

  lemma {:induction false} LineEndAt(file: seq<byte>, i: nat, e: nat)
    requires i <= e < |file| && file[e] == NEWLINE
    requires forall k :: i <= k < e ==> file[k] != NEWLINE
    ensures LineEnd(file, i) == e + 1
    decreases e - i
  {
    if i < e { LineEndAt(file, i + 1, e); }
  }

  /** Reading at the position where a line was written gives that line, whatever follows. */
  lemma ReadLineAt(before: seq<byte>, entry: AuditEntry, after: seq<byte>)
    ensures ReadLine(before + LineBytes(entry) + after, |before|) == LineBytes(entry)
  {
    var line := LineBytes(entry);
    var file := before + line + after;
    LineRoundTrip(entry);
    assert forall k :: 0 <= k < |line| ==> file[|before| + k] == line[k];
    assert forall k :: |before| <= k < |before| + |line| - 1 ==> file[k] == line[k - |before|];
    LineEndAt(file, |before|, |before| + |line| - 1);
    assert file[|before|..|before| + |line|] == line;
  }

  lemma BytesAssoc(a: seq<byte>, b: seq<byte>, c: seq<byte>)
    ensures (a + b) + c == a + (b + c)
  {
  }

  lemma {:induction false} FileBytesConcat(a: seq<AuditEntry>, b: seq<AuditEntry>)
    ensures FileBytes(a + b) == FileBytes(a) + FileBytes(b)
  {
    hide LineBytes;
    if b == [] {
      assert a + b == a;
    } else {
      var init := b[..|b| - 1];
      FileBytesConcat(a, init);
      assert (a + b)[..|a + b| - 1] == a + init;
      BytesAssoc(FileBytes(a), FileBytes(init), LineBytes(b[|b| - 1]));
    }
  }

  lemma FileStep(live: seq<AuditEntry>, i: nat)
    requires i < |live|
    ensures FileBytes(live[..i + 1]) == FileBytes(live[..i]) + LineBytes(live[i])
  {
    hide LineBytes;
    assert live[..i + 1][..i] == live[..i];
  }

  /** The file around line i. */
  lemma FileAround(live: seq<AuditEntry>, i: nat)
    requires i < |live|
    ensures FileBytes(live) == FileBytes(live[..i]) + LineBytes(live[i]) + FileBytes(live[i + 1..])
  {
    hide LineBytes, FileBytes;
    assert live == live[..i + 1] + live[i + 1..];
    FileStep(live, i);
    FileBytesConcat(live[..i + 1], live[i + 1..]);
  }

  /** Line i of the file is read at its offset, also when more bytes have been written after. */
  lemma ReadLineOfEntry(live: seq<AuditEntry>, i: nat, after: seq<byte>)
    requires i < |live|
    ensures ReadLine(FileBytes(live) + after, Offset(live, i)) == LineBytes(live[i])
  {
    hide LineBytes, ReadLine, FileBytes;
    FileAround(live, i);
    BytesAssoc(FileBytes(live[..i]) + LineBytes(live[i]), FileBytes(live[i + 1..]), after);
    ReadLineAt(FileBytes(live[..i]), live[i], FileBytes(live[i + 1..]) + after);
  }

  lemma ReadRecordOfEntry(live: seq<AuditEntry>, i: nat, after: seq<byte>)
    requires i < |live|
    ensures ReadRecord(ReadLine(FileBytes(live) + after, Offset(live, i))) == Some(live[i].ToJson())
  {
    ReadLineOfEntry(live, i, after);
    LineRoundTrip(live[i]);
  }

  lemma SamePlace(a: seq<byte>, b: seq<byte>, line: seq<byte>)
    requires line + a == line + b
    ensures a == b
  {
    assert (line + a)[|line|..] == a && (line + b)[|line|..] == b;
  }

  /** The bytes of a file determine its entries. */
  lemma {:induction false} FileDetermines(a: seq<AuditEntry>, b: seq<AuditEntry>)
    requires FileBytes(a) == FileBytes(b)
    ensures a == b
    decreases |a|
  {
    hide FileBytes, LineBytes, ReadLine, ReadRecord, FromDict;
    if a == [] || b == [] {
      OnlyEmptyFile(a);
      OnlyEmptyFile(b);
    } else {
      FirstLine(a);
      FirstLine(b);
      FromDictOfToJson(a[0]);
      FromDictOfToJson(b[0]);
      SamePlace(FileBytes(a[1..]), FileBytes(b[1..]), LineBytes(a[0]));
      FileDetermines(a[1..], b[1..]);
      assert a == [a[0]] + a[1..] && b == [b[0]] + b[1..];
    }
  }

  lemma OnlyEmptyFile(a: seq<AuditEntry>)
    ensures FileBytes(a) == [] <==> a == []
  {
    hide LineBytes, LineText, ReadRecord;
    if a != [] { LineRoundTrip(a[|a| - 1]); }
  }

  /** The first line of a file reads back as its first entry, and the rest is the file of the others. */
  lemma FirstLine(a: seq<AuditEntry>)
    requires a != []
    ensures ReadRecord(ReadLine(FileBytes(a), 0)) == Some(a[0].ToJson())
    ensures FileBytes(a) == LineBytes(a[0]) + FileBytes(a[1..])
  {
    hide LineBytes, ReadLine, ReadRecord;
    assert a[..0] == [] && FileBytes(a[..0]) == [];
    FileAround(a, 0);
    ReadRecordOfEntry(a, 0, []);
    assert FileBytes(a) + [] == FileBytes(a);
    assert [] + LineBytes(a[0]) == LineBytes(a[0]);
  }

  // ----- the index -----

  datatype Row = Row(
    recordType: string, timestamp: int, decisionHash: string, seedMethod: Option<string>, offset: nat, line: nat)

  type Index = map<string, Row>

  /** What a TEXT column holds of a value that sqlite3 can bind. */
  function TextColumn(value: Option<Json>): Option<string> {
    match value
    case Some(Str(s)) => Some(s)
    case Some(Num(n)) => Some(PrintInt(n))
    case Some(Bool(b)) => Some(if b then "1" else "0")
    case _ => None
  }

  function RowOf(e: Primitives, entry: AuditEntry, offset: nat, line: nat): Row {
    Row(entry.phase, entry.timestamp, HexOfBytes(e.sha256(Utf8(Print(entry.data)))),
        TextColumn(entry.data.Get("seed_measurement_method")), offset, line)
  }

  /** The hash in a row binds the payload, unless the canonical texts of two payloads collide. */
  lemma RowBindsPayload(e: Primitives, a: AuditEntry, b: AuditEntry, i: nat, j: nat)
    requires var x, y := Utf8(Print(a.data)), Utf8(Print(b.data)); e.sha256(x) == e.sha256(y) ==> x == y
    ensures RowOf(e, a, i, i).decisionHash == RowOf(e, b, j, j).decisionHash <==> a.data == b.data
    ensures RowOf(e, a, i, j).recordType == a.phase && RowOf(e, a, i, j).timestamp == a.timestamp
  {
    hide Print, Utf8, Loads, HexOfBytes, TextColumn;
    if RowOf(e, a, i, i).decisionHash == RowOf(e, b, j, j).decisionHash {
      HexOfBytesInjective(e.sha256(Utf8(Print(a.data))), e.sha256(Utf8(Print(b.data))));
      Utf8Injective(Print(a.data), Print(b.data));
      LoadsOfPrint(a.data);
      LoadsOfPrint(b.data);
    }
  }

  /** `_index_entry` returns: sqlite3 binds nothing, truth values, text and integers of 64 bits, and
      raises for a list, an object or a larger integer. */
  predicate Bindable(entry: AuditEntry) {
    match entry.data.Get("seed_measurement_method")
    case Some(Num(n)) => -0x8000_0000_0000_0000 <= n < 0x8000_0000_0000_0000
    case Some(Arr(_)) => false
    case Some(Obj(_)) => false
    case _ => true
  }

  /** `_index_entry` when it returns: insert or replace. */
  function Indexed(e: Primitives, index: Index, entry: AuditEntry, offset: nat, line: nat): Index {
    index[entry.RecordId() := RowOf(e, entry, offset, line)]
  }

  /** A line of the file with the line number under which it was put into the index; none for a line
      that never was, because its append raised or stopped after the write. */
  datatype Line = Line(entry: AuditEntry, row: Option<nat>)

  /** What a scan of the file reads. */
  function Entries(live: seq<Line>): seq<AuditEntry> {
    seq(|live|, i requires 0 <= i < |live| => live[i].entry)
  }

  /** The entries that were put into the index. */
  function Listed(live: seq<Line>): seq<AuditEntry> {
    if live == [] then []
    else
      var last := live[|live| - 1];
      Listed(live[..|live| - 1]) + if last.row.Some? then [last.entry] else []
  }

  /** The index that listing those entries one by one builds. */
  function IndexOf(e: Primitives, live: seq<Line>): Index {
    if live == [] then map[]
    else
      var init, last := live[..|live| - 1], live[|live| - 1];
      if last.row.Some?
      then Indexed(e, IndexOf(e, init), last.entry, |FileBytes(Entries(init))|, last.row.value)
      else IndexOf(e, init)
  }

  /** The position of the last entry with a record id, found by scanning. */
  function LastWithId(live: seq<AuditEntry>, id: string): (r: Option<nat>)
    ensures r.Some? ==> r.value < |live| && live[r.value].RecordId() == id
    ensures r.Some? ==> forall i :: r.value < i < |live| ==> live[i].RecordId() != id
    ensures r.None? ==> forall i :: 0 <= i < |live| ==> live[i].RecordId() != id
  {
    if live == [] then None
    else if live[|live| - 1].RecordId() == id then Some(|live| - 1)
    else LastWithId(live[..|live| - 1], id)
  }

  /** The record of the last entry with an id, found by scanning. */
  function ScanId(live: seq<AuditEntry>, id: string): Option<Json> {
    match LastWithId(live, id)
    case None => None
    case Some(i) => Some(live[i].ToJson())
  }

  /** The position of the last line with a record id that was put into the index. */
  function LastListed(live: seq<Line>, id: string): (r: Option<nat>)
    ensures r.Some? ==> r.value < |live| && live[r.value].row.Some? && live[r.value].entry.RecordId() == id
    ensures r.Some? ==> forall i :: r.value < i < |live| && live[i].row.Some? ==> live[i].entry.RecordId() != id
    ensures r.None? ==> forall i :: 0 <= i < |live| && live[i].row.Some? ==> live[i].entry.RecordId() != id
  {
    if live == [] then None
    else if live[|live| - 1].row.Some? && live[|live| - 1].entry.RecordId() == id then Some(|live| - 1)
    else LastListed(live[..|live| - 1], id)
  }

  lemma EntriesInit(live: seq<Line>, i: nat)
    requires i <= |live|
    ensures Entries(live)[..i] == Entries(live[..i])
  {
  }

  /** The index has one row for each record id that was ever put into it, made from the last line
      with that id that was, at its offset. */
  lemma {:induction false} IndexIsLast(e: Primitives, live: seq<Line>, id: string)
    ensures match LastListed(live, id)
            case None => id !in IndexOf(e, live)
            case Some(i) => id in IndexOf(e, live)
                            && IndexOf(e, live)[id] == RowOf(e, live[i].entry, Offset(Entries(live), i), live[i].row.value)
  {
    hide RowOf, LineBytes, FileBytes, RecordIdOf, Entries;
    if live != [] {
      var init := live[..|live| - 1];
      match LastListed(live, id) {
        case None =>
          IndexIsLast(e, init, id);
        case Some(i) =>
          EntriesInit(live, i);
          if i < |init| {
            IndexIsLast(e, init, id);
            EntriesInit(init, i);
            assert init[..i] == live[..i];
          }
      }
    }
  }

  /** Scanning the listed entries finds the line that the index has. */
  lemma {:induction false} LastOfListed(live: seq<Line>, id: string)
    ensures ScanId(Listed(live), id)
         == match LastListed(live, id)
            case None => None
            case Some(i) => Some(live[i].entry.ToJson())
  {
    hide RecordIdOf;
    if live != [] {
      var init, last := live[..|live| - 1], live[|live| - 1];
      LastOfListed(init, id);
      if last.row.Some? {
        assert Listed(live)[..|Listed(live)| - 1] == Listed(init);
      } else {
        assert Listed(live) == Listed(init);
      }
    }
  }

  /** `get_by_id`: the row of the index, then one seek and one line of the file. */
  function Lookup(file: seq<byte>, index: Index, id: string): Option<Json> {
    if id !in index then None
    else
      var raw := ReadLine(file, index[id].offset);
      if raw == [] then None else ReadRecord(raw)
  }

  /** A lookup through the index finds what a scan of the listed entries finds, also while a further
      line is only half accounted for. */
  lemma LookupIsLast(e: Primitives, live: seq<Line>, after: seq<byte>, id: string)
    ensures Lookup(FileBytes(Entries(live)) + after, IndexOf(e, live), id) == ScanId(Listed(live), id)
  {
    hide FileBytes, ReadLine, ReadRecord, IndexOf, ScanId, Listed;
    IndexIsLast(e, live, id);
    LastOfListed(live, id);
    match LastListed(live, id) {
      case None =>
      case Some(i) =>
        ReadLineOfEntry(Entries(live), i, after);
        ReadRecordOfEntry(Entries(live), i, after);
        LineRoundTrip(Entries(live)[i]);
    }
  }

  // ----- when the index agrees with the file -----

  lemma {:induction false} ListedInEntries(live: seq<Line>, id: string)
    ensures LastWithId(Entries(live), id).None? ==> LastWithId(Listed(live), id).None?
  {
    hide RecordIdOf;
    if live != [] {
      var init := live[..|live| - 1];
      ListedInEntries(init, id);
      EntriesInit(live, |init|);
      assert Entries(live)[|init|] == live[|init|].entry;
      if live[|init|].row.Some? {
        assert Listed(live)[..|Listed(live)| - 1] == Listed(init);
      }
    }
  }

  /** A lookup is right about an id exactly when the file has no entry with it, or the last one that was
      put into the index equals the last one in the file. */
  lemma LookupRightIff(e: Primitives, live: seq<Line>, id: string)
    ensures var all, listed := Entries(live), Listed(live);
            var last, known := LastWithId(all, id), LastWithId(listed, id);
            Lookup(FileBytes(all), IndexOf(e, live), id) == ScanId(all, id)
            <==> last.None? || (known.Some? && listed[known.value] == all[last.value])
  {
    hide Lookup, IndexOf, FileBytes, Listed, Entries;
    LookupIsLast(e, live, [], id);
    assert FileBytes(Entries(live)) + [] == FileBytes(Entries(live));
    ListedInEntries(live, id);
    var last, known := LastWithId(Entries(live), id), LastWithId(Listed(live), id);
    if last.Some? && known.Some? {
      FromDictOfToJson(Entries(live)[last.value]);
      FromDictOfToJson(Listed(live)[known.value]);
    }
  }

  /** The lines of some entries that were all put into the index under their own numbers. */
  function Numbering(entries: seq<AuditEntry>): seq<Line> {
    seq(|entries|, i requires 0 <= i < |entries| => Line(entries[i], Some(i)))
  }

  ghost predicate Numbered(live: seq<Line>) {
    forall i :: 0 <= i < |live| ==> live[i].row == Some(i)
  }

  lemma NumberedIsNumbering(live: seq<Line>)
    ensures Numbered(live) <==> live == Numbering(Entries(live))
  {
  }

  lemma {:induction false} AllListed(live: seq<Line>)
    requires forall i :: 0 <= i < |live| ==> live[i].row.Some?
    ensures Listed(live) == Entries(live)
  {
    if live != [] {
      AllListed(live[..|live| - 1]);
      EntriesInit(live, |live| - 1);
    }
  }

  /** The lines of some entries of which the index has the first k only, as when writing stopped
      before the later rows. */
  function StoppedAt(entries: seq<AuditEntry>, k: nat): seq<Line> {
    seq(|entries|, i requires 0 <= i < |entries| => Line(entries[i], if i < k then Some(i) else None))
  }

  lemma {:induction false} StoppedIndex(e: Primitives, entries: seq<AuditEntry>, k: nat)
    requires k <= |entries|
    ensures Entries(StoppedAt(entries, k)) == entries
    ensures Listed(StoppedAt(entries, k)) == entries[..k]
    ensures IndexOf(e, StoppedAt(entries, k)) == IndexOf(e, Numbering(entries[..k]))
    decreases |entries|
  {
    hide Indexed, FileBytes;
    var live := StoppedAt(entries, k);
    if k < |entries| {
      var init := entries[..|entries| - 1];
      StoppedIndex(e, init, k);
      assert live[..|live| - 1] == StoppedAt(init, k);
      assert init[..k] == entries[..k];
    } else {
      assert entries[..k] == entries;
      assert live == Numbering(entries);
      AllListed(live);
    }
  }

  /** An index that lacks the rows of the last lines answers wrongly for exactly those ids that one of
      the last lines has, unless the last of these only repeats the last entry the index knows. */
  lemma StoppedLookup(e: Primitives, entries: seq<AuditEntry>, k: nat, id: string)
    requires k <= |entries|
    ensures var known, missed := LastWithId(entries[..k], id), LastWithId(entries[k..], id);
            Lookup(FileBytes(entries), IndexOf(e, Numbering(entries[..k])), id) == ScanId(entries, id)
            <==> missed.None? || (known.Some? && entries[known.value] == entries[k + missed.value])
  {
    hide Lookup, IndexOf, FileBytes;
    StoppedIndex(e, entries, k);
    LookupRightIff(e, StoppedAt(entries, k), id);
    LastInParts(entries, k, id);
  }

  lemma {:induction false} LastInParts(entries: seq<AuditEntry>, k: nat, id: string)
    requires k <= |entries|
    ensures LastWithId(entries, id)
         == match LastWithId(entries[k..], id)
            case None => LastWithId(entries[..k], id)
            case Some(i) => Some(k + i)
    decreases |entries|
  {
    hide RecordIdOf, LastWithId;
    if k == |entries| {
      assert entries[..k] == entries && entries[k..] == [];
      LastStep([], id);
    } else {
      var init, tail := entries[..|entries| - 1], entries[k..];
      LastInParts(init, k, id);
      assert tail != [] && tail[|tail| - 1] == entries[|entries| - 1];
      assert init[k..] == tail[..|tail| - 1] && init[..k] == entries[..k];
      LastStep(entries, id);
      LastStep(tail, id);
    }
  }

  lemma LastStep(entries: seq<AuditEntry>, id: string)
    ensures LastWithId(entries, id)
         == if entries == [] then None
            else if entries[|entries| - 1].RecordId() == id then Some(|entries| - 1)
            else LastWithId(entries[..|entries| - 1], id)
  {
  }

  /** For every id the index has the row of the last entry with it that is in the file, under its
      offset and its line number, and finds it; and it has no other rows. */
  ghost predicate Faithful(e: Primitives, live: seq<Line>) {
    forall id :: RowRight(e, live, id)
  }

  ghost predicate RowRight(e: Primitives, live: seq<Line>, id: string) {
    var all, index := Entries(live), IndexOf(e, live);
    && Lookup(FileBytes(all), index, id) == ScanId(all, id)
    && match LastWithId(all, id)
       case None => id !in index
       case Some(i) => id in index && index[id] == RowOf(e, all[i], Offset(all, i), i)
  }

  /** The lines are those that appending to an empty file writes: a row for each entry that sqlite3
      can bind, numbered by the rows before it. */
  ghost predicate Counted(live: seq<Line>) {
    forall i :: 0 <= i < |live| ==>
      live[i].row == if Bindable(live[i].entry) then Some(|Listed(live[..i])|) else None
  }

  ghost predicate AllBindable(entries: seq<AuditEntry>) {
    forall i :: 0 <= i < |entries| ==> Bindable(entries[i])
  }

  lemma {:induction false} ListedAtMost(live: seq<Line>, i: nat)
    requires i < |live| && live[i].row.None?
    ensures |Listed(live)| < |live|
    decreases |live|
  {
    if i < |live| - 1 {
      ListedAtMost(live[..|live| - 1], i);
    } else {
      ListedNotMore(live[..i]);
    }
  }

  lemma {:induction false} ListedNotMore(live: seq<Line>)
    ensures |Listed(live)| <= |live|
  {
    if live != [] { ListedNotMore(live[..|live| - 1]); }
  }

  lemma CountedIsNumbered(live: seq<Line>)
    requires Counted(live) && AllBindable(Entries(live))
    ensures Numbered(live) && Listed(live) == Entries(live)
  {
    forall i | 0 <= i < |live| ensures live[i].row == Some(i) {
      assert Bindable(Entries(live)[i]);
      forall j | 0 <= j < i ensures live[..i][j].row.Some? {
        assert Bindable(Entries(live)[j]);
      }
      AllListed(live[..i]);
    }
    AllListed(live);
  }

  lemma NumberedIsFaithful(e: Primitives, live: seq<Line>)
    requires Numbered(live)
    ensures Faithful(e, live)
  {
    hide FileBytes, IndexOf, Lookup, RowOf, Listed;
    AllListed(live);
    forall id ensures RowRight(e, live, id) {
      LookupRightIff(e, live, id);
      IndexIsLast(e, live, id);
      SameLast(live, id);
    }
  }

  lemma {:induction false} SameLast(live: seq<Line>, id: string)
    requires forall i :: 0 <= i < |live| ==> live[i].row.Some?
    ensures LastListed(live, id) == LastWithId(Entries(live), id)
  {
    hide RecordIdOf;
    if live != [] {
      SameLast(live[..|live| - 1], id);
      EntriesInit(live, |live| - 1);
    }
  }

  lemma {:induction false} OffsetsGrow(live: seq<AuditEntry>, i: nat, j: nat)
    requires i < j <= |live|
    ensures Offset(live, i) < Offset(live, j)
    decreases j
  {
    hide LineBytes, LineText, FileBytes, ReadRecord;
    FileStep(live, j - 1);
    LineRoundTrip(live[j - 1]);
    if i < j - 1 { OffsetsGrow(live, i, j - 1); }
  }

  /** For a file written from empty, index, scan and line numbers agree exactly when sqlite3 could
      bind every entry. */
  lemma FaithfulIffBindable(e: Primitives, live: seq<Line>)
    requires Counted(live)
    ensures Faithful(e, live) <==> AllBindable(Entries(live))
  {
    if AllBindable(Entries(live)) {
      CountedIsNumbered(live);
      NumberedIsFaithful(e, live);
    } else {
      var i :| 0 <= i < |live| && !Bindable(Entries(live)[i]);
      UnbindableMissed(e, live, i);
    }
  }

  lemma UnbindableMissed(e: Primitives, live: seq<Line>, i: nat)
    requires Counted(live) && i < |live| && !Bindable(live[i].entry)
    ensures !RowRight(e, live, live[i].entry.RecordId())
  {
    hide FileBytes, IndexOf, Lookup, RecordIdOf, Bindable, ScanId, LastListed, LastWithId, Offset, Counted, RowOf;
    var all, id := Entries(live), live[i].entry.RecordId();
    assert all[i].RecordId() == id;
    var last := LastWithId(all, id).value;
    RowMissing(live, i);
    IndexIsLast(e, live, id);
    if LastListed(live, id).Some? {
      var k := LastListed(live, id).value;
      assert all[k].RecordId() == id;
      RowTells(e, live[k].entry, Offset(all, k), live[k].row.value);
      RowTells(e, all[last], Offset(all, last), last);
      if k < last {
        OffsetsGrow(all, k, last);
      } else {
        NumberTooLow(live, i, k);
      }
    }
  }

  lemma RowTells(e: Primitives, entry: AuditEntry, offset: nat, line: nat)
    ensures RowOf(e, entry, offset, line).offset == offset && RowOf(e, entry, offset, line).line == line
  {
  }

  lemma RowMissing(live: seq<Line>, i: nat)
    requires Counted(live) && i < |live| && !Bindable(live[i].entry)
    ensures live[i].row.None?
  {
  }

  /** Behind an entry that sqlite3 could not bind, line numbers are too low. */
  lemma NumberTooLow(live: seq<Line>, i: nat, k: nat)
    requires Counted(live) && i < k < |live| && !Bindable(live[i].entry) && live[k].row.Some?
    ensures live[k].row.value < k
  {
    hide Bindable, Listed;
    assert live[..k][i] == live[i];
    ListedAtMost(live[..k], i);
  }

  // ----- record ids over the phases the code writes -----

  predicate IsPhase(p: string) {
    p == PHASE_COMMITMENT || p == PHASE_EXECUTION || p == PHASE_SETTLEMENT || p == PHASE_ROTATION
  }

  lemma RecordIdEnds(o: string, p: string, k: nat)
    requires k < |p|
    ensures var id := RecordIdOf(o, p); id[|id| - 1 - k] == p[|p| - 1 - k]
  {
  }

  lemma PhasesDiffer(p: string, q: string)
    requires IsPhase(p) && IsPhase(q) && p != q
    ensures |p| > 6 && |q| > 6
    ensures p[|p| - 1] != q[|q| - 1] || p[|p| - 1 - 6] != q[|q| - 1 - 6]
  {
  }

  lemma DifferentPhases(o: string, p: string, o': string, p': string)
    requires IsPhase(p) && IsPhase(p') && p != p'
    ensures RecordIdOf(o, p) != RecordIdOf(o', p')
  {
    PhasesDiffer(p, p');
    hide IsPhase, RecordIdOf;
    RecordIdEnds(o, p, 0);
    RecordIdEnds(o', p', 0);
    RecordIdEnds(o, p, 6);
    RecordIdEnds(o', p', 6);
  }

  /** The joined record id determines order and phase. */
  lemma RecordIdInjective(o: string, p: string, o': string, p': string)
    requires IsPhase(p) && IsPhase(p') && RecordIdOf(o, p) == RecordIdOf(o', p')
    ensures o == o' && p == p'
  {
    hide IsPhase, RecordIdOf;
    if p != p' { DifferentPhases(o, p, o', p'); }
    SameSuffix(o, o', p);
  }

  lemma SameSuffix(o: string, o': string, p: string)
    requires RecordIdOf(o, p) == RecordIdOf(o', p)
    ensures o == o'
  {
    var id := RecordIdOf(o, p);
    assert id[..|id| - |p| - 1] == o && id[..|id| - |p| - 1] == o';
  }

  /** The position of the last entry of an order and phase, found by scanning. */
  function LastOf(live: seq<AuditEntry>, orderId: string, phase: string): (r: Option<nat>)
    ensures r.Some? ==> r.value < |live|
  {
    if live == [] then None
    else if live[|live| - 1].orderId == orderId && live[|live| - 1].phase == phase then Some(|live| - 1)
    else LastOf(live[..|live| - 1], orderId, phase)
  }

  ghost predicate AllPhases(live: seq<AuditEntry>) {
    forall i :: 0 <= i < |live| ==> IsPhase(live[i].phase)
  }

  lemma {:induction false} LastOfIsLastWithId(live: seq<AuditEntry>, orderId: string, phase: string)
    requires AllPhases(live) && IsPhase(phase)
    ensures LastOf(live, orderId, phase) == LastWithId(live, RecordIdOf(orderId, phase))
  {
    if live != [] {
      var last := live[|live| - 1];
      if last.RecordId() == RecordIdOf(orderId, phase) {
        RecordIdInjective(last.orderId, last.phase, orderId, phase);
      } else {
        LastOfIsLastWithId(live[..|live| - 1], orderId, phase);
      }
    }
  }

  // ----- a whole flow -----

  /** The payload, signature and proof of one phase. */
  datatype PhaseRecord = PhaseRecord(data: Dict, signature: Dict, proof: Dict)

  datatype Flow = Flow(
    commitment: Option<PhaseRecord>, execution: Option<PhaseRecord>, settlement: Option<PhaseRecord>)

  function RecordOf(entry: AuditEntry): PhaseRecord {
    PhaseRecord(entry.data, entry.signature, entry.quantumProof)
  }

  /** The record of an order in a phase, by scanning the entries. */
  function ScanPhase(live: seq<AuditEntry>, orderId: string, phase: string): Option<PhaseRecord> {
    match LastOf(live, orderId, phase)
    case None => None
    case Some(i) => Some(RecordOf(live[i]))
  }

  /** The flow of an order, by scanning the entries. */
  function ScanFlow(live: seq<AuditEntry>, orderId: string): Flow {
    Flow(ScanPhase(live, orderId, PHASE_COMMITMENT),
         ScanPhase(live, orderId, PHASE_EXECUTION),
         ScanPhase(live, orderId, PHASE_SETTLEMENT))
  }

  /** One phase of `get_trade_flow`: the index, one seek, one line; a line that is not JSON is
      passed over and a record that is not an entry raises. */
  function LookupPhase(file: seq<byte>, index: Index, orderId: string, phase: string): Result<Option<PhaseRecord>> {
    match Lookup(file, index, RecordIdOf(orderId, phase))
    case None => Ok(None)
    case Some(j) =>
      var entry :- FromDict(j);
      Ok(Some(RecordOf(entry)))
  }

  lemma {:induction false} ListedPhases(live: seq<Line>)
    requires AllPhases(Entries(live))
    ensures AllPhases(Listed(live))
  {
    if live != [] {
      var init := live[..|live| - 1];
      EntriesInit(live, |init|);
      ListedPhases(init);
      assert IsPhase(Entries(live)[|init|].phase);
    }
  }

  lemma LookupPhaseIsScan(e: Primitives, live: seq<Line>, orderId: string, phase: string)
    requires AllPhases(Entries(live)) && IsPhase(phase)
    ensures LookupPhase(FileBytes(Entries(live)), IndexOf(e, live), orderId, phase)
         == Ok(ScanPhase(Listed(live), orderId, phase))
  {
    hide RecordIdOf, Lookup, FromDict, Listed, Entries, IndexOf, FileBytes;
    LookupIsLast(e, live, [], RecordIdOf(orderId, phase));
    assert FileBytes(Entries(live)) + [] == FileBytes(Entries(live));
    ListedPhases(live);
    LastOfIsLastWithId(Listed(live), orderId, phase);
    match LastOf(Listed(live), orderId, phase) {
      case None =>
      case Some(i) => FromDictOfToJson(Listed(live)[i]);
    }
  }
}
