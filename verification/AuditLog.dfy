/** The audit log object: an append-only file with an index of byte offsets, rotation and
    recovery of the index. */
module AuditLogFile {
  import opened Outcomes
  import opened Bytes
  import opened Json
  import opened PyValues
  import opened Ecdsa
  import opened AuditStore
  import opened Rotation
  import opened Sessions

  /** The first of some optional values that is true, or a default: Python's chain of `or`. */
  function FirstTruthy(candidates: seq<Option<Json>>, default: Json): Json {
    if candidates == [] then default
    else if candidates[0].Some? && Truthy(candidates[0].value) then candidates[0].value
    else FirstTruthy(candidates[1..], default)
  }

  /** `_extract_quantum_proof`. */
  function ExtractProof(data: Dict): Dict {
    Obj(map[
      "seed_commitment" := FirstTruthy([
        data.Get("quantum_seed_commitment"),
        data.Get("execution_quantum_seed_commitment"),
        data.Get("settlement_quantum_seed_commitment")], Str("")),
      "key_temporal_window" := FirstTruthy([
        data.Get("key_temporal_window"),
        data.Get("settlement_temporal_window")], Obj(map[]))])
  }

  /** The order a payload names: a string that is not empty. */
  function OrderId(id: Option<Json>): Result<string> {
    match id
    case Some(Str(s)) => if s == [] then Err(MissingOrderId) else Ok(s)
    case _ => Err(MissingOrderId)
  }

  function EntryFor(phase: string, orderId: string, data: Dict, signature: Dict, now: int): AuditEntry {
    AuditEntry(now, phase, orderId, data, signature, ExtractProof(data))
  }

  /** What an append writes: its payload and signature under its order and phase, at the time it says. */
  lemma EntryForFields(phase: string, orderId: string, data: Dict, signature: Dict, now: int)
    ensures var x := EntryFor(phase, orderId, data, signature, now);
            && x.timestamp == now && x.phase == phase && x.orderId == orderId
            && x.data == data && x.signature == signature && x.quantumProof == ExtractProof(data)
  {
  }

  // ----- queries -----

  /** The filters of `query`; None for one that is not given. */
  datatype Filter = Filter(
    recordType: Option<string>, since: Option<int>, until: Option<int>, seedMethod: Option<string>)

  predicate Matches(f: Filter, row: Row) {
    && (f.recordType.Some? ==> row.recordType == f.recordType.value)
    && (f.since.Some? ==> f.since.value <= row.timestamp)
    && (f.until.Some? ==> row.timestamp <= f.until.value)
    && (f.seedMethod.Some? ==> row.seedMethod == Some(f.seedMethod.value))
  }

  function MatchingIds(index: Index, f: Filter): set<string> {
    set id | id in index && Matches(f, index[id])
  }

  /** The ids are rows of the index that match, in timestamp order, as many as the limit allows, and
      every match left out is no earlier than any of them. A negative limit is no limit. */
  ghost predicate Selected(index: Index, f: Filter, limit: int, ids: seq<string>) {
    && (forall i :: 0 <= i < |ids| ==> ids[i] in MatchingIds(index, f))
    && (forall i, j :: 0 <= i < j < |ids| ==> ids[i] != ids[j])
    && (forall i, j :: 0 <= i < j < |ids| ==> index[ids[i]].timestamp <= index[ids[j]].timestamp)
    && |ids| == (if 0 <= limit < |MatchingIds(index, f)| then limit else |MatchingIds(index, f)|)
    && (forall id, i :: id in MatchingIds(index, f) && id !in ids && 0 <= i < |ids| ==>
          index[ids[i]].timestamp <= index[id].timestamp)
  }

  // ----- queries on what is returned -----

  /** The method that a payload states, as a text column spells it. */
  ghost predicate StatesMethod(data: Json, spelled: string) {
    match data.Get("seed_measurement_method")
    case Some(Str(s)) => s == spelled
    case Some(Num(n)) => PrintInt(n) == spelled
    case Some(Bool(b)) => spelled == if b then "1" else "0"
    case _ => false
  }

  /** A record meets the filters by its own fields. */
  ghost predicate Meets(f: Filter, record: Json) {
    match (record.Get("timestamp"), record.Get("phase"), record.Get("data"))
    case (Some(Num(time)), Some(Str(phase)), Some(data)) =>
      && (f.recordType.Some? ==> phase == f.recordType.value)
      && (f.since.Some? ==> f.since.value <= time)
      && (f.until.Some? ==> time <= f.until.value)
      && (f.seedMethod.Some? ==> StatesMethod(data, f.seedMethod.value))
    case _ => false
  }

  function TimeOf(record: Json): int {
    match record.Get("timestamp")
    case Some(Num(time)) => time
    case _ => 0
  }

  /** The record is that of the last line with its id that was put into the index. */
  ghost predicate IsLatest(live: seq<Line>, record: Json) {
    exists i :: LatestAt(live, i) && record == live[i].entry.ToJson()
  }

  ghost predicate LatestAt(live: seq<Line>, i: int) {
    && 0 <= i < |live| && live[i].row.Some?
    && forall j :: i < j < |live| && live[j].row.Some? ==> live[j].entry.RecordId() != live[i].entry.RecordId()
  }

  /** The answer to a query, in terms of the records alone: the latest of each id that meet the filters,
      without repetition and in the order of time; and all of them, unless as many as the limit allows
      are there and none of these is later than one left out. A negative limit is no limit. */
  ghost predicate Answers(live: seq<Line>, f: Filter, limit: int, results: seq<Json>) {
    && (forall i :: 0 <= i < |results| ==> IsLatest(live, results[i]) && Meets(f, results[i]))
    && (forall i, j :: 0 <= i < j < |results| ==> results[i] != results[j] && TimeOf(results[i]) <= TimeOf(results[j]))
    && (0 <= limit ==> |results| <= limit)
    && forall record :: IsLatest(live, record) && Meets(f, record) && record !in results ==>
         0 <= limit == |results| && forall i :: 0 <= i < |results| ==> TimeOf(results[i]) <= TimeOf(record)
  }

  /** The records are those of the selected rows, in their order. */
  ghost predicate RecordsOf(live: seq<Line>, ids: seq<string>, results: seq<Json>) {
    && |ids| == |results|
    && forall i :: 0 <= i < |results| ==> RecordFor(live, ids[i], results[i])
  }

  ghost predicate RecordFor(live: seq<Line>, id: string, record: Json) {
    match LastListed(live, id)
    case None => false
    case Some(i) => record == live[i].entry.ToJson()
  }

  /** A row matches exactly when the record that it was made from meets the filters, and has its time. */
  lemma RowTellsRecord(e: Primitives, live: seq<Line>, f: Filter, id: string, record: Json)
    requires RecordFor(live, id, record)
    ensures id in IndexOf(e, live)
    ensures IndexOf(e, live)[id].timestamp == TimeOf(record)
    ensures id in MatchingIds(IndexOf(e, live), f) <==> Meets(f, record)
  {
    hide IndexOf, Offset, HexOfBytes, Print, Utf8;
    IndexIsLast(e, live, id);
    var entry := live[LastListed(live, id).value].entry;
    RowMatches(e, f, entry, Offset(Entries(live), LastListed(live, id).value),
               live[LastListed(live, id).value].row.value);
  }

  lemma RowMatches(e: Primitives, f: Filter, entry: AuditEntry, offset: nat, line: nat)
    ensures RowOf(e, entry, offset, line).timestamp == TimeOf(entry.ToJson())
    ensures Matches(f, RowOf(e, entry, offset, line)) <==> Meets(f, entry.ToJson())
  {
    hide HexOfBytes, Print, Utf8;
    EntryFields(entry);
  }

  /** A record names its id. */
  lemma RecordNamesId(live: seq<Line>, id: string, record: Json)
    requires RecordFor(live, id, record)
    ensures IsLatest(live, record)
    ensures FromDict(record).Ok? && FromDict(record).value.RecordId() == id
  {
    hide FromDict;
    var i := LastListed(live, id).value;
    assert LatestAt(live, i);
    FromDictOfToJson(live[i].entry);
  }

  lemma LatestHasRecord(live: seq<Line>, record: Json) returns (id: string)
    requires IsLatest(live, record)
    ensures RecordFor(live, id, record)
  {
    var i :| LatestAt(live, i) && record == live[i].entry.ToJson();
    id := live[i].entry.RecordId();
  }

  lemma AnswersQuery(e: Primitives, live: seq<Line>, f: Filter, limit: int, ids: seq<string>, results: seq<Json>)
    requires Selected(IndexOf(e, live), f, limit, ids) && RecordsOf(live, ids, results)
    ensures Answers(live, f, limit, results)
  {
    hide IndexOf, Meets, IsLatest, RecordFor, MatchingIds, FromDict, TimeOf;
    var index := IndexOf(e, live);
    forall i | 0 <= i < |results|
      ensures IsLatest(live, results[i]) && Meets(f, results[i])
      ensures ids[i] in index && index[ids[i]].timestamp == TimeOf(results[i])
    {
      RowTellsRecord(e, live, f, ids[i], results[i]);
      RecordNamesId(live, ids[i], results[i]);
    }
    forall i, j | 0 <= i < j < |results|
      ensures results[i] != results[j] && TimeOf(results[i]) <= TimeOf(results[j])
    {
      RecordNamesId(live, ids[i], results[i]);
      RecordNamesId(live, ids[j], results[j]);
    }
    forall record | IsLatest(live, record) && Meets(f, record) && record !in results
      ensures 0 <= limit == |results| && forall i :: 0 <= i < |results| ==> TimeOf(results[i]) <= TimeOf(record)
    {
      LeftOut(e, live, f, limit, ids, results, record);
    }
  }

  /** A record that was left out. */
  lemma LeftOut(e: Primitives, live: seq<Line>, f: Filter, limit: int, ids: seq<string>, results: seq<Json>, record: Json)
    requires Selected(IndexOf(e, live), f, limit, ids) && RecordsOf(live, ids, results)
    requires forall i :: 0 <= i < |results| ==>
               ids[i] in IndexOf(e, live) && IndexOf(e, live)[ids[i]].timestamp == TimeOf(results[i])
    requires IsLatest(live, record) && Meets(f, record) && record !in results
    ensures 0 <= limit == |results| && forall i :: 0 <= i < |results| ==> TimeOf(results[i]) <= TimeOf(record)
  {
    hide IndexOf, Meets, IsLatest, MatchingIds, FromDict, TimeOf;
    var id := LatestHasRecord(live, record);
    RowTellsRecord(e, live, f, id, record);
    assert forall i :: 0 <= i < |ids| ==> results[i] in results && RecordFor(live, ids[i], results[i]);
    assert id in MatchingIds(IndexOf(e, live), f) && id !in ids;
    MissingMeansFull(MatchingIds(IndexOf(e, live), f), ids, id);
  }

  /** Different ids of a set that lack one of it are fewer. */
  lemma MissingMeansFull(all: set<string>, ids: seq<string>, id: string)
    requires id in all && id !in ids
    requires forall i :: 0 <= i < |ids| ==> ids[i] in all
    requires forall i, j :: 0 <= i < j < |ids| ==> ids[i] != ids[j]
    ensures |ids| < |all|
  {
    SetOfDifferent(ids);
    var some := set x | x in ids;
    assert some < all by { assert id in all && id !in some; }
    SmallerSet(some, all);
  }

  lemma {:induction false} SetOfDifferent(ids: seq<string>)
    requires forall i, j :: 0 <= i < j < |ids| ==> ids[i] != ids[j]
    ensures |set x | x in ids| == |ids|
  {
    if ids != [] {
      var init, last := ids[..|ids| - 1], ids[|ids| - 1];
      SetOfDifferent(init);
      assert ids == init + [last];
      assert (set x | x in ids) == (set x | x in init) + {last};
      assert last !in init;
    }
  }

  lemma SmallerSet(some: set<string>, all: set<string>)
    requires some < all
    ensures |some| < |all|
  {
    var rest := all - some;
    assert all == some + rest && some * rest == {};
    var x :| x in all && x !in some;
    assert x in rest;
  }

  /** One of the rows with the least timestamp. */
  method Earliest(index: Index, ids: set<string>) returns (first: string)
    requires ids != {} && forall id :: id in ids ==> id in index
    ensures first in ids && forall id :: id in ids ==> index[first].timestamp <= index[id].timestamp
  {
    first :| first in ids;
    var rest := ids - {first};
    while rest != {}
      invariant rest <= ids && first in ids
      invariant forall id :: id in ids - rest ==> index[first].timestamp <= index[id].timestamp
      decreases rest
    {
      var id :| id in rest;
      if index[id].timestamp < index[first].timestamp { first := id; }
      rest := rest - {id};
    }
  }

  lemma MatchingAreRows(index: Index, f: Filter)
    ensures MatchingIds(index, f) <= index.Keys
  {
  }

  /** What the SQL statement of `query` returns, by repeated selection. */
  method SelectIds(index: Index, f: Filter, limit: int) returns (ids: seq<string>)
    ensures Selected(index, f, limit, ids)
  {
    hide MatchingIds, Matches;
    MatchingAreRows(index, f);
    ids := [];
    var all := MatchingIds(index, f);
    var rest := all;
    while rest != {} && |ids| != limit
      invariant rest <= all
      invariant forall id :: id in all <==> id in rest || id in ids
      invariant forall i :: 0 <= i < |ids| ==> ids[i] in all && ids[i] !in rest
      invariant forall i, j :: 0 <= i < j < |ids| ==> ids[i] != ids[j]
      invariant forall i, j :: 0 <= i < j < |ids| ==> index[ids[i]].timestamp <= index[ids[j]].timestamp
      invariant forall i, id :: 0 <= i < |ids| && id in rest ==> index[ids[i]].timestamp <= index[id].timestamp
      invariant |ids| + |rest| == |all|
      invariant 0 <= limit ==> |ids| <= limit
      decreases rest
    {
      var first := Earliest(index, rest);
      ids := ids + [first];
      rest := rest - {first};
    }
  }

  /** Opening a file that appends wrote, with the archives beside it and the index that was stored:
      all rows, some of them, or none. An index without rows is rebuilt, any other is kept. */
  method Open(c: Config, file: seq<byte>, stored: Index, archives: map<string, Archive>, ghost view: View)
    returns (r: Result<AuditLog>)
    requires file == FileBytes(Entries(view.live)) && AllPhases(Entries(view.live))
    requires archives == ArchivesOf(c, view.past)
    requires stored == IndexOf(c.e, view.live)
    ensures r.Ok? <==> !OpeningRaises(view)
    ensures r.Ok? ==> fresh(r.value) && r.value.Valid() && r.value.c == c && r.value.view == Reopened(view)
    ensures r.Err? ==> r.error == UnboundParameter
  {
    hide FileBytes, IndexOf, ArchivesOf, AllBindable;
    var log := new AuditLog(c, file, stored, archives, view);
    var loaded := log.Load();
    if loaded.Err? { return Err(loaded.error); }
    return Ok(log);
  }

  class AuditLog {
    const c: Config
    var file: seq<byte>
    var index: Index
    var lineCount: nat
    var archives: map<string, Archive>
    /** The lines that the stored bytes and rows stand for. */
    ghost var view: View

    /** File, index, counter and archives are those that the lines determine. */
    ghost predicate Valid()
      reads this
    {
      && Disk(file, index, lineCount, archives) == DiskOf(c, view)
      && AllPhases(Entries(view.live))
    }

    constructor (c: Config, file: seq<byte>, stored: Index, archives: map<string, Archive>, ghost view: View)
      ensures this.c == c && this.file == file && index == stored && this.archives == archives && this.view == view
    {
      this.c, this.file, this.index, this.archives := c, file, stored, archives;
      this.view := view;
      lineCount := 0;
    }

    /** The steps of opening: count the lines, and rebuild the index when it is empty. */
    method Load() returns (r: Result<()>)
      requires file == FileBytes(Entries(view.live)) && AllPhases(Entries(view.live))
      requires index == IndexOf(c.e, view.live) && archives == ArchivesOf(c, view.past)
      modifies this`index, this`lineCount, this`view
      ensures r.Ok? <==> !OpeningRaises(old(view))
      ensures r.Ok? ==> Valid() && view == Reopened(old(view))
      ensures r.Err? ==> r.error == UnboundParameter
    {
      hide FileBytes, IndexOf, ArchivesOf, AllBindable, Listed;
      NoRows(c.e, view.live);
      lineCount := CountLines();
      if lineCount > 0 && index == map[] {
        var rebuilt := RebuildIndex();
        if rebuilt.Err? { return rebuilt; }
      }
      NothingUnbindable(view.live);
      RebuiltIsReopened(view);
      view := Reopened(view);
      return Ok(());
    }

    lemma NothingUnbindable(live: seq<Line>)
      ensures live == [] ==> AllBindable(Entries(live)) && Listed(live) == []
    {
    }

    lemma RebuiltIsReopened(v: View)
      ensures Entries(Reopened(v).live) == Entries(v.live)
      ensures Reopened(v).past == v.past && Reopened(v).count == |v.live|
      ensures v.live == [] ==> Reopened(v).live == []
    {
    }

    /** `_count_lines`. */
    method CountLines() returns (count: nat)
      requires file == FileBytes(Entries(view.live))
      ensures count == |view.live|
    {
      hide LineBytes, ReadRecord, FromDict, FileBytes, Offset, ReadLine, LineEnd;
      count := 0;
      var position := 0;
      StartOfFile();
      while position < |file|
        invariant count <= |view.live| && position == Offset(Entries(view.live), count)
        decreases |file| - position
      {
        NextLine(count);
        position := LineEnd(file, position);
        count := count + 1;
      }
      EndOfFile(count);
    }

    lemma StartOfFile()
      ensures Offset(Entries(view.live), 0) == 0
    {
      assert Entries(view.live)[..0] == [];
    }

    /** A position that is not the end of the file begins the next line, which reads back as the
        entry it was written for. */
    lemma NextLine(n: nat)
      requires file == FileBytes(Entries(view.live))
      requires n <= |view.live| && Offset(Entries(view.live), n) < |file|
      ensures n < |view.live|
      ensures var raw := ReadLine(file, Offset(Entries(view.live), n));
              && raw != []
              && LineEnd(file, Offset(Entries(view.live), n)) == Offset(Entries(view.live), n) + |raw|
              && Offset(Entries(view.live), n + 1) == Offset(Entries(view.live), n) + |raw|
              && ReadRecord(raw) == Some(Entries(view.live)[n].ToJson())
              && FromDict(Entries(view.live)[n].ToJson()) == Ok(Entries(view.live)[n])
    {
      hide LineBytes, ReadRecord, FromDict;
      var live := Entries(view.live);
      assert live[..|live|] == live;
      ReadLineOfEntry(live, n, []);
      ReadRecordOfEntry(live, n, []);
      FromDictOfToJson(live[n]);
      LineRoundTrip(live[n]);
      assert FileBytes(live) + [] == FileBytes(live);
      assert live[..n + 1][..n] == live[..n];
      assert |FileBytes(live[..n + 1])| == |FileBytes(live[..n])| + |LineBytes(live[n])|;
    }

    lemma NextRow(n: nat)
      requires n < |view.live|
      ensures var all := Entries(view.live);
              IndexOf(c.e, Numbering(all[..n + 1]))
              == Indexed(c.e, IndexOf(c.e, Numbering(all[..n])), all[n], Offset(all, n), n)
    {
      var all := Entries(view.live);
      var upTo := Numbering(all[..n + 1]);
      assert upTo[..n] == Numbering(all[..n]);
      assert Entries(Numbering(all[..n])) == all[..n];
    }

    lemma EndOfFile(n: nat)
      requires file == FileBytes(Entries(view.live))
      requires n <= |view.live| && Offset(Entries(view.live), n) >= |file|
      ensures n == |view.live|
    {
      if n < |view.live| { FileAround(Entries(view.live), n); }
    }

    /** `_rebuild_index`: scanning the file row by row gives every line a row under its own number; it
        raises at an entry that sqlite3 cannot bind. */
    method RebuildIndex() returns (r: Result<()>)
      requires file == FileBytes(Entries(view.live)) && index == map[]
      modifies this`index
      ensures r.Ok? <==> AllBindable(Entries(view.live))
      ensures r.Ok? ==> index == IndexOf(c.e, Numbering(Entries(view.live)))
      ensures r.Err? ==> r.error == UnboundParameter
    {
      hide LineBytes, ReadRecord, FromDict, FileBytes, Offset, Indexed, Bindable;
      var offset, lineNum := 0, 0;
      StartOfFile();
      assert Entries(view.live)[..0] == [];
      while true
        invariant lineNum <= |view.live| && offset == Offset(Entries(view.live), lineNum) <= |file|
        invariant index == IndexOf(c.e, Numbering(Entries(view.live)[..lineNum]))
        invariant forall i :: 0 <= i < lineNum ==> Bindable(Entries(view.live)[i])
        decreases |file| - offset
      {
        var raw := ReadLine(file, offset);
        if raw == [] {
          EndReached(lineNum);
          break;
        }
        NextLine(lineNum);
        NextRow(lineNum);
        var j := ReadRecord(raw);
        if j.None? { return Err(CorruptEntry); }
        var entry := FromDict(j.value);
        if entry.Err? { return Err(CorruptEntry); }
        if !Bindable(entry.value) { return Err(UnboundParameter); }
        index := Indexed(c.e, index, entry.value, offset, lineNum);
        offset, lineNum := offset + |raw|, lineNum + 1;
      }
      assert Entries(view.live)[..lineNum] == Entries(view.live);
      return Ok(());
    }

    lemma EndReached(n: nat)
      requires file == FileBytes(Entries(view.live)) && n <= |view.live|
      requires Offset(Entries(view.live), n) <= |file| && ReadLine(file, Offset(Entries(view.live), n)) == []
      ensures n == |view.live|
    {
      if Offset(Entries(view.live), n) < |file| { NextLine(n); }
      EndOfFile(n);
    }

    /** `_append`. The marker that a rotation writes is appended without a further rotation check, so
        the recursion between the two ends. An entry that sqlite3 cannot bind raises after its line
        was written. */
    method Append(entry: AuditEntry, stamp: string, now: int) returns (r: Result<()>)
      requires Valid() && IsPhase(entry.phase)
      modifies this`file, this`index, this`lineCount, this`archives, this`view
      ensures Valid()
      ensures view == Rotation.Append(c, old(view), Call(entry, stamp, now))
      ensures r == if Bindable(entry) then Ok(()) else Err(UnboundParameter)
      decreases if entry.IsMarker() then 0 else 3
    {
      hide FileBytes, IndexOf, ArchivesOf, LineText, Marker, Closing, Indexed, Bindable;
      if entry.phase != PHASE_ROTATION {
        MaybeRotate(stamp, now);
      }
      AddingOnDisk(c, view, entry);
      AddingPhase(view, entry);
      var line := LineText(entry);
      var offset := |file|;
      file := file + (Utf8(line) + [NEWLINE]);
      if !Bindable(entry) {
        view := Adding(view, entry);
        return Err(UnboundParameter);
      }
      index := Indexed(c.e, index, entry, offset, lineCount);
      lineCount := lineCount + 1;
      view := Adding(view, entry);
      return Ok(());
    }

    lemma AddingPhase(v: View, entry: AuditEntry)
      requires AllPhases(Entries(v.live)) && IsPhase(entry.phase)
      ensures AllPhases(Entries(Adding(v, entry).live))
    {
      assert Entries(Adding(v, entry).live) == Entries(v.live) + [entry];
    }

    method MaybeRotate(stamp: string, now: int)
      requires Valid()
      modifies this`file, this`index, this`lineCount, this`archives, this`view
      ensures Valid()
      ensures view == if ShouldRotate(c, DiskOf(c, old(view)))
                      then Adding(Closing(c, old(view), stamp), Marker(c, stamp, now)) else old(view)
      decreases 2
    {
      if c.maxSize <= 0 && lineCount > 0 {
        Rotate(stamp, now);
        return;
      }
      if c.maxSize > 0 && |file| >= c.maxSize {
        Rotate(stamp, now);
      }
    }

    /** `_rotate`. */
    method Rotate(stamp: string, now: int)
      requires Valid()
      modifies this`file, this`index, this`lineCount, this`archives, this`view
      ensures Valid()
      ensures view == Adding(Closing(c, old(view), stamp), Marker(c, stamp, now))
      decreases 1
    {
      hide FileBytes, IndexOf, ArchivesOf;
      ClosingOnDisk(c, view, stamp);
      archives := archives[JsonlName(c, stamp) := Archive(file, index)];
      file, index, lineCount := [], map[], 0;
      view := Closing(c, view, stamp);
      var _ := Append(Marker(c, stamp, now), stamp, now);
    }

    /** `append_commitment`. */
    method AppendCommitment(commitment: Dict, signature: Dict, stamp: string, now: int) returns (r: Result<()>)
      requires Valid()
      modifies this`file, this`index, this`lineCount, this`archives, this`view
      ensures Valid()
      ensures var id := OrderId(commitment.Get("order_id"));
              match id
              case Err(error) => r == Err(error) && view == old(view)
              case Ok(orderId) =>
                var entry := EntryFor(PHASE_COMMITMENT, orderId, commitment, signature, now);
                && view == Rotation.Append(c, old(view), Call(entry, stamp, now))
                && r == if Bindable(entry) then Ok(()) else Err(UnboundParameter)
    {
      var id := OrderId(commitment.Get("order_id"));
      if id.Err? { return Err(id.error); }
      r := Append(EntryFor(PHASE_COMMITMENT, id.value, commitment, signature, now), stamp, now);
    }

    /** `append_execution`. */
    method AppendExecution(execution: Dict, signature: Dict, stamp: string, now: int) returns (r: Result<()>)
      requires Valid()
      modifies this`file, this`index, this`lineCount, this`archives, this`view
      ensures Valid()
      ensures var id := ExecutionOrderId(execution);
              match id
              case Err(error) => r == Err(error) && view == old(view)
              case Ok(orderId) =>
                var entry := EntryFor(PHASE_EXECUTION, orderId, execution, signature, now);
                && view == Rotation.Append(c, old(view), Call(entry, stamp, now))
                && r == if Bindable(entry) then Ok(()) else Err(UnboundParameter)
    {
      var id := ExecutionOrderId(execution);
      if id.Err? { return Err(id.error); }
      r := Append(EntryFor(PHASE_EXECUTION, id.value, execution, signature, now), stamp, now);
    }

    /** `append_settlement`. */
    method AppendSettlement(settlement: Dict, signature: Dict, stamp: string, now: int) returns (r: Result<()>)
      requires Valid()
      modifies this`file, this`index, this`lineCount, this`archives, this`view
      ensures Valid()
      ensures var id := OrderId(settlement.Get("order_id"));
              match id
              case Err(error) => r == Err(error) && view == old(view)
              case Ok(orderId) =>
                var entry := EntryFor(PHASE_SETTLEMENT, orderId, settlement, signature, now);
                && view == Rotation.Append(c, old(view), Call(entry, stamp, now))
                && r == if Bindable(entry) then Ok(()) else Err(UnboundParameter)
    {
      var id := OrderId(settlement.Get("order_id"));
      if id.Err? { return Err(id.error); }
      r := Append(EntryFor(PHASE_SETTLEMENT, id.value, settlement, signature, now), stamp, now);
    }

    /** `read_all`: the full scan. */
    method ReadAll() returns (r: Result<seq<AuditEntry>>)
      requires Valid()
      ensures r == Ok(Entries(view.live))
    {
      hide LineBytes, ReadRecord, FromDict, FileBytes, Offset, ReadLine, LineEnd, IndexOf, ArchivesOf;
      var entries := [];
      var offset := 0;
      StartOfFile();
      while offset < |file|
        invariant |entries| <= |view.live| && entries == Entries(view.live)[..|entries|]
        invariant offset == Offset(Entries(view.live), |entries|)
        decreases |file| - offset
      {
        NextLine(|entries|);
        var raw := ReadLine(file, offset);
        var j := ReadRecord(raw);
        if j.None? { return Err(CorruptEntry); }
        var entry := FromDict(j.value);
        if entry.Err? { return Err(CorruptEntry); }
        entries := entries + [entry.value];
        offset := offset + |raw|;
      }
      EndOfFile(|entries|);
      assert Entries(view.live)[..|entries|] == Entries(view.live);
      return Ok(entries);
    }

    /** `get_by_id`: the record of the last entry with the id that a scan of the listed entries finds. */
    method GetById(id: string) returns (record: Option<Json>)
      requires Valid()
      ensures record == ScanId(Listed(view.live), id)
    {
      hide FileBytes, IndexOf, Lookup;
      LookupIsLast(c.e, view.live, [], id);
      assert FileBytes(Entries(view.live)) + [] == FileBytes(Entries(view.live));
      record := Lookup(file, index, id);
    }

    /** `get_trade_flow`: for each phase, the last entry of the order that a scan of the listed entries
        finds. */
    method GetTradeFlow(orderId: string) returns (r: Result<Flow>)
      requires Valid()
      ensures r == Ok(ScanFlow(Listed(view.live), orderId))
    {
      hide FileBytes, IndexOf, Lookup;
      LookupPhaseIsScan(c.e, view.live, orderId, PHASE_COMMITMENT);
      LookupPhaseIsScan(c.e, view.live, orderId, PHASE_EXECUTION);
      LookupPhaseIsScan(c.e, view.live, orderId, PHASE_SETTLEMENT);
      var commitment := LookupPhase(file, index, orderId, PHASE_COMMITMENT);
      var execution := LookupPhase(file, index, orderId, PHASE_EXECUTION);
      var settlement := LookupPhase(file, index, orderId, PHASE_SETTLEMENT);
      if commitment.Ok? && execution.Ok? && settlement.Ok? {
        return Ok(Flow(commitment.value, execution.value, settlement.value));
      }
      return Err(CorruptEntry);
    }

    /** `query`: filter, sort and limit on the index, then the record of each row from the file. */
    method Query(f: Filter, limit: int) returns (results: seq<Json>)
      requires Valid()
      ensures Answers(view.live, f, limit, results)
    {
      hide LineBytes, FileBytes, ReadLine, ReadRecord, Matches, RecordFor, Selected, IndexOf, ArchivesOf, Answers;
      var selected := SelectIds(index, f, limit);
      results := [];
      for n := 0 to |selected|
        invariant |results| == n
        invariant forall i :: 0 <= i < n ==> RecordFor(view.live, selected[i], results[i])
      {
        SelectedRow(f, limit, selected, n);
        var raw := ReadLine(file, index[selected[n]].offset);
        if raw != [] {
          var record := ReadRecord(raw);
          if record.Some? { results := results + [record.value]; }
        }
      }
      assert RecordsOf(view.live, selected, results);
      AnswersQuery(c.e, view.live, f, limit, selected, results);
    }

    /** The line of a selected row is there and reads back as the last record with its id. */
    lemma SelectedRow(f: Filter, limit: int, ids: seq<string>, n: nat)
      requires Valid() && Selected(index, f, limit, ids) && n < |ids|
      ensures ids[n] in index
      ensures var raw := ReadLine(file, index[ids[n]].offset);
              raw != [] && ReadRecord(raw).Some? && RecordFor(view.live, ids[n], ReadRecord(raw).value)
    {
      hide LineBytes, FileBytes, ReadLine, ReadRecord, Matches, IndexOf, ArchivesOf;
      assert ids[n] in MatchingIds(index, f);
      IndexIsLast(c.e, view.live, ids[n]);
      var last, all := LastListed(view.live, ids[n]).value, Entries(view.live);
      ReadLineOfEntry(all, last, []);
      ReadRecordOfEntry(all, last, []);
      LineRoundTrip(all[last]);
      assert FileBytes(all) + [] == FileBytes(all);
    }
  }

  function ExecutionOrderId(execution: Dict): Result<string> {
    match execution.Get("execution_result")
    case Some(r) => OrderId(r.Get("order_id"))
    case None => Err(MissingOrderId)
  }
}
