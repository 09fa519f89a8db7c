/** What appending does to the log as a whole: when it rotates, what an archive keeps, and what a
    run of appends conserves. */
module Rotation {
  import opened Outcomes
  import opened Bytes
  import opened Json
  import opened Ecdsa
  import opened AuditStore

  /** The fixed settings of a log. `maxSize` is in bytes. */
  datatype Config = Config(e: Primitives, stem: string, maxSize: int)

  /** A file that rotation has closed, under the name it was archived as. */
  datatype Closed = Closed(name: string, lines: seq<Line>)

  /** The log as lines: those of the live file, the counter from which the next row gets its line
      number, and the closed files, oldest first. */
  datatype View = View(live: seq<Line>, count: nat, past: seq<Closed>)

  const EMPTY := View([], 0, [])

  datatype Archive = Archive(file: seq<byte>, index: Index)

  /** What is stored: the live file with its index and line counter, and the archives by name. */
  datatype Disk = Disk(file: seq<byte>, index: Index, lines: nat, archives: map<string, Archive>)

  /** One append: the entry, and what the clock gives for the archive name and the marker. */
  datatype Call = Call(entry: AuditEntry, stamp: string, now: int)

  function JsonlName(c: Config, stamp: string): string {
    c.stem + "_" + stamp + ".jsonl"
  }

  function DbName(c: Config, stamp: string): string {
    c.stem + "_" + stamp + ".db"
  }

  /** The first entry of a fresh file, which names the file before it. */
  function Marker(c: Config, stamp: string, now: int): AuditEntry {
    AuditEntry(now, PHASE_ROTATION, "__system__",
               Obj(map["previous_log" := Str(JsonlName(c, stamp)), "previous_db" := Str(DbName(c, stamp))]),
               Obj(map[]), Obj(map[]))
  }

  // ----- steps on what is stored -----

  /** `_maybe_rotate`. */
  predicate ShouldRotate(c: Config, d: Disk) {
    if c.maxSize <= 0 then d.lines > 0 else |d.file| >= c.maxSize
  }

  /** `_rotate` up to the marker: archive file and index under the new name, replacing whatever had
      that name, and start empty ones. */
  function ArchiveStep(c: Config, d: Disk, stamp: string): Disk {
    Disk([], map[], 0, d.archives[JsonlName(c, stamp) := Archive(d.file, d.index)])
  }

  function WriteStep(d: Disk, entry: AuditEntry): Disk {
    d.(file := d.file + LineBytes(entry))
  }

  function IndexStep(c: Config, d: Disk, entry: AuditEntry, offset: nat): Disk {
    d.(index := Indexed(c.e, d.index, entry, offset, d.lines))
  }

  function CountStep(d: Disk): Disk {
    d.(lines := d.lines + 1)
  }

  // ----- what is stored and the lines it stands for -----

  function ArchiveOf(c: Config, lines: seq<Line>): Archive {
    Archive(FileBytes(Entries(lines)), IndexOf(c.e, lines))
  }

  function ArchivesOf(c: Config, past: seq<Closed>): map<string, Archive> {
    if past == [] then map[]
    else
      var last := past[|past| - 1];
      ArchivesOf(c, past[..|past| - 1])[last.name := ArchiveOf(c, last.lines)]
  }

  function DiskOf(c: Config, v: View): Disk {
    Disk(FileBytes(Entries(v.live)), IndexOf(c.e, v.live), v.count, ArchivesOf(c, v.past))
  }

  function Closing(c: Config, v: View, stamp: string): View {
    View([], 0, v.past + [Closed(JsonlName(c, stamp), v.live)])
  }

  /** The line is written; row and counter follow when sqlite3 can bind the entry, and otherwise the
      append raises after the write. */
  function Adding(v: View, entry: AuditEntry): View {
    if Bindable(entry) then View(v.live + [Line(entry, Some(v.count))], v.count + 1, v.past)
    else v.(live := v.live + [Line(entry, None)])
  }

  /** The log before the entry of a call is written: after the rotation, when one is due. */
  function Ready(c: Config, v: View, call: Call): View {
    if !call.entry.IsMarker() && ShouldRotate(c, DiskOf(c, v))
    then Adding(Closing(c, v, call.stamp), Marker(c, call.stamp, call.now))
    else v
  }

  /** `_append`, on lines. */
  function Append(c: Config, v: View, call: Call): View {
    Adding(Ready(c, v, call), call.entry)
  }

  lemma ClosingOnDisk(c: Config, v: View, stamp: string)
    ensures DiskOf(c, Closing(c, v, stamp)) == ArchiveStep(c, DiskOf(c, v), stamp)
  {
    var past := Closing(c, v, stamp).past;
    assert past[..|past| - 1] == v.past;
  }

  /** Writing the line, the row and the counter is adding the entry; a row that cannot be bound leaves
      only the line. */
  lemma AddingOnDisk(c: Config, v: View, entry: AuditEntry)
    ensures var d := DiskOf(c, v);
            DiskOf(c, Adding(v, entry))
            == if Bindable(entry) then CountStep(IndexStep(c, WriteStep(d, entry), entry, |d.file|))
               else WriteStep(d, entry)
  {
    hide LineBytes, Indexed, Bindable;
    var live := Adding(v, entry).live;
    assert live[..|live| - 1] == v.live;
    assert Entries(live) == Entries(v.live) + [entry];
    assert Entries(live)[..|live| - 1] == Entries(v.live);
  }

  // ----- runs of appends -----

  function Run(c: Config, v: View, calls: seq<Call>): View {
    if calls == [] then v
    else Append(c, Run(c, v, calls[..|calls| - 1]), calls[|calls| - 1])
  }

  function WithoutMarkers(entries: seq<AuditEntry>): seq<AuditEntry> {
    if entries == [] then []
    else
      var last := entries[|entries| - 1];
      WithoutMarkers(entries[..|entries| - 1]) + if last.IsMarker() then [] else [last]
  }

  function PastEntries(past: seq<Closed>): seq<AuditEntry> {
    if past == [] then []
    else PastEntries(past[..|past| - 1]) + WithoutMarkers(Entries(past[|past| - 1].lines))
  }

  /** The closed files in rotation order, then the live file, without the markers. */
  function Everything(v: View): seq<AuditEntry> {
    PastEntries(v.past) + WithoutMarkers(Entries(v.live))
  }

  function EntriesOf(calls: seq<Call>): seq<AuditEntry> {
    seq(|calls|, i requires 0 <= i < |calls| => calls[i].entry)
  }

  ghost predicate NoMarkers(calls: seq<Call>) {
    forall i :: 0 <= i < |calls| ==> !calls[i].entry.IsMarker()
  }

  lemma EverythingOfAdding(v: View, entry: AuditEntry)
    ensures Everything(Adding(v, entry)) == Everything(v) + if entry.IsMarker() then [] else [entry]
  {
    var live := Entries(Adding(v, entry).live);
    assert live == Entries(v.live) + [entry];
    assert live[..|live| - 1] == Entries(v.live);
  }

  lemma EverythingOfClosing(c: Config, v: View, stamp: string)
    ensures Everything(Closing(c, v, stamp)) == Everything(v)
  {
    var past := Closing(c, v, stamp).past;
    assert past[..|past| - 1] == v.past;
  }

  lemma EverythingOfAppend(c: Config, v: View, call: Call)
    requires !call.entry.IsMarker()
    ensures Everything(Append(c, v, call)) == Everything(v) + [call.entry]
  {
    hide Everything, Adding;
    var w := Closing(c, v, call.stamp);
    var marker := Marker(c, call.stamp, call.now);
    EverythingOfClosing(c, v, call.stamp);
    EverythingOfAdding(w, marker);
    EverythingOfAdding(Adding(w, marker), call.entry);
    EverythingOfAdding(v, call.entry);
  }

  /** Rotation conserves entries: after any run of appends, the closed files in rotation order
      followed by the live file are what was there before followed by exactly the entries of the
      run, once each and in order, those of appends that raised after writing included. */
  lemma {:induction false} RunConserves(c: Config, v: View, calls: seq<Call>)
    requires NoMarkers(calls)
    ensures Everything(Run(c, v, calls)) == Everything(v) + EntriesOf(calls)
  {
    hide Everything, Append;
    if calls == [] {
      assert Everything(v) + EntriesOf(calls) == Everything(v);
    } else {
      var init, last := calls[..|calls| - 1], calls[|calls| - 1];
      RunConserves(c, v, init);
      EverythingOfAppend(c, Run(c, v, init), last);
      assert EntriesOf(calls) == EntriesOf(init) + [last.entry];
      assert (Everything(v) + EntriesOf(init)) + [last.entry] == Everything(v) + (EntriesOf(init) + [last.entry]);
    }
  }

  // ----- the chain of files -----

  /** Whether a file begins with exactly one marker, which names the given file. */
  ghost predicate Continues(entries: seq<AuditEntry>, name: string) {
    && entries != [] && entries[0].IsMarker()
    && entries[0].data.Get("previous_log") == Some(Str(name))
    && forall i :: 1 <= i < |entries| ==> !entries[i].IsMarker()
  }

  ghost predicate Plain(entries: seq<AuditEntry>) {
    forall i :: 0 <= i < |entries| ==> !entries[i].IsMarker()
  }

  /** The first file has no marker; every later one begins with one that names its predecessor. */
  ghost predicate Chained(v: View) {
    && (v.past == [] ==> Plain(Entries(v.live)))
    && (v.past != [] ==>
          && Plain(Entries(v.past[0].lines))
          && (forall i :: 1 <= i < |v.past| ==> Continues(Entries(v.past[i].lines), v.past[i - 1].name))
          && Continues(Entries(v.live), v.past[|v.past| - 1].name))
  }

  lemma AppendChains(c: Config, v: View, call: Call)
    requires Chained(v) && !call.entry.IsMarker()
    ensures Chained(Append(c, v, call))
  {
    hide DiskOf, ShouldRotate, Bindable;
    var w := Append(c, v, call);
    if w.past != v.past {
      assert Entries(w.live) == [Marker(c, call.stamp, call.now), call.entry];
      assert w.past[|w.past| - 1] == Closed(JsonlName(c, call.stamp), v.live);
      assert forall i :: 0 <= i < |v.past| ==> w.past[i] == v.past[i];
    } else {
      assert Entries(w.live) == Entries(v.live) + [call.entry];
    }
  }

  /** The chain of files holds through every run of appends. */
  lemma {:induction false} RunChains(c: Config, v: View, calls: seq<Call>)
    requires Chained(v) && NoMarkers(calls)
    ensures Chained(Run(c, v, calls))
  {
    if calls != [] {
      RunChains(c, v, calls[..|calls| - 1]);
      AppendChains(c, Run(c, v, calls[..|calls| - 1]), calls[|calls| - 1]);
    }
  }

  // ----- the archives by name -----

  /** The last closed file with a name. */
  function LastNamed(past: seq<Closed>, name: string): (r: Option<nat>)
    ensures r.Some? ==> r.value < |past| && past[r.value].name == name
    ensures r.Some? ==> forall i :: r.value < i < |past| ==> past[i].name != name
    ensures r.None? ==> forall i :: 0 <= i < |past| ==> past[i].name != name
  {
    if past == [] then None
    else if past[|past| - 1].name == name then Some(|past| - 1)
    else LastNamed(past[..|past| - 1], name)
  }

  /** What is stored under a name is the last file closed under it, with its index. */
  lemma {:induction false} ArchiveIsLastNamed(c: Config, past: seq<Closed>, name: string)
    ensures match LastNamed(past, name)
            case None => name !in ArchivesOf(c, past)
            case Some(i) =>
              name in ArchivesOf(c, past)
              && ArchivesOf(c, past)[name] == ArchiveOf(c, past[i].lines)
  {
    hide ArchiveOf;
    if past != [] && past[|past| - 1].name != name {
      ArchiveIsLastNamed(c, past[..|past| - 1], name);
    }
  }

  /** What is stored under the name of a closed file is the last file closed under that name, with its
      index. So the bytes of a closed file are still there exactly when no later file took its name, or
      the last that did holds the same entries. */
  lemma ArchivesKept(c: Config, past: seq<Closed>, i: nat)
    requires i < |past|
    ensures past[i].name in ArchivesOf(c, past)
    ensures var stored := ArchivesOf(c, past)[past[i].name];
            && ((forall k :: i < k < |past| ==> past[k].name != past[i].name) ==> stored == ArchiveOf(c, past[i].lines))
            && (stored.file == FileBytes(Entries(past[i].lines))
                <==> forall k :: IsLastNamed(past, past[i].name, k) ==> Entries(past[k].lines) == Entries(past[i].lines))
  {
    hide FileBytes, IndexOf, Entries, ArchivesOf, LastNamed, IsLastNamed;
    var name := past[i].name;
    ArchiveIsLastNamed(c, past, name);
    var last := LastNamed(past, name).value;
    LastIsLast(past, name, last);
    if FileBytes(Entries(past[last].lines)) == FileBytes(Entries(past[i].lines)) {
      FileDetermines(Entries(past[last].lines), Entries(past[i].lines));
    }
  }

  lemma LastIsLast(past: seq<Closed>, name: string, last: nat)
    requires LastNamed(past, name) == Some(last)
    ensures forall k :: IsLastNamed(past, name, k) <==> k == last
  {
    hide LastNamed;
  }

  ghost predicate IsLastNamed(past: seq<Closed>, name: string, k: int) {
    0 <= k < |past| && past[k].name == name && forall j :: k < j < |past| ==> past[j].name != name
  }

  // ----- whole runs from an empty log -----

  /** Archives that are made under different stamps have different names, which begin with the name of the
      log and end as log and index files do. */
  lemma NamesApart(c: Config, a: string, b: string)
    ensures JsonlName(c, a) == JsonlName(c, b) <==> a == b
    ensures c.stem + "_" <= JsonlName(c, a) && c.stem + "_" <= DbName(c, a)
    ensures JsonlName(c, a)[|c.stem| + 1..] == a + ".jsonl" && DbName(c, a)[|c.stem| + 1..] == a + ".db"
  {
    var front := c.stem + "_";
    assert JsonlName(c, a) == front + (a + ".jsonl") && JsonlName(c, b) == front + (b + ".jsonl");
    assert DbName(c, a) == front + (a + ".db");
    if JsonlName(c, a) == JsonlName(c, b) {
      assert JsonlName(c, a)[|front|..] == a + ".jsonl" && JsonlName(c, b)[|front|..] == b + ".jsonl";
      assert (a + ".jsonl")[..|a|] == a && (b + ".jsonl")[..|b|] == b;
    }
  }

  /** What a marker says. */
  lemma MarkerFields(c: Config, stamp: string, now: int)
    ensures var m := Marker(c, stamp, now);
            && m.phase == "LOG_ROTATION" && m.orderId == "__system__" && m.timestamp == now
            && m.data.Get("previous_log") == Some(Str(c.stem + "_" + stamp + ".jsonl"))
            && m.data.Get("previous_db") == Some(Str(c.stem + "_" + stamp + ".db"))
  {
  }

  ghost predicate StampsDiffer(calls: seq<Call>) {
    forall i, j :: 0 <= i < j < |calls| ==> calls[i].stamp != calls[j].stamp
  }

  ghost predicate NamedBy(c: Config, calls: seq<Call>, name: string) {
    exists i :: 0 <= i < |calls| && name == JsonlName(c, calls[i].stamp)
  }

  /** With different stamps the closed files of a run have different names. */
  ghost predicate NamesDiffer(c: Config, calls: seq<Call>, past: seq<Closed>) {
    && (forall k :: 0 <= k < |past| ==> NamedBy(c, calls, past[k].name))
    && forall j, k :: 0 <= j < k < |past| ==> past[j].name != past[k].name
  }

  lemma NewName(c: Config, init: seq<Call>, call: Call, past: seq<Closed>, lines: seq<Line>)
    requires StampsDiffer(init + [call]) && NamesDiffer(c, init, past)
    ensures NamesDiffer(c, init + [call], past)
    ensures NamesDiffer(c, init + [call], past + [Closed(JsonlName(c, call.stamp), lines)])
  {
    hide JsonlName;
    var calls := init + [call];
    assert calls[|init|] == call;
    assert NamedBy(c, calls, JsonlName(c, call.stamp));
    forall k | 0 <= k < |past|
      ensures NamedBy(c, calls, past[k].name) && past[k].name != JsonlName(c, call.stamp)
    {
      var i :| 0 <= i < |init| && past[k].name == JsonlName(c, init[i].stamp);
      assert calls[i] == init[i];
      NamesApart(c, init[i].stamp, call.stamp);
    }
  }

  lemma {:induction false} RunNames(c: Config, calls: seq<Call>)
    requires StampsDiffer(calls)
    ensures NamesDiffer(c, calls, Run(c, EMPTY, calls).past)
  {
    if calls != [] {
      hide ShouldRotate, DiskOf, Adding, NamesDiffer, JsonlName;
      var init, call := calls[..|calls| - 1], calls[|calls| - 1];
      assert calls == init + [call];
      RunNames(c, init);
      var v := Run(c, EMPTY, init);
      NewName(c, init, call, v.past, v.live);
      AppendPast(c, v, call);
    } else {
      NoNames(c);
    }
  }

  lemma NoNames(c: Config)
    ensures NamesDiffer(c, [], [])
  {
  }

  lemma AppendPast(c: Config, v: View, call: Call)
    ensures var w := Append(c, v, call);
            w.past == v.past || w.past == v.past + [Closed(JsonlName(c, call.stamp), v.live)]
  {
    hide ShouldRotate, DiskOf, JsonlName, Marker, Bindable;
  }

  /** After every run from an empty log: the entries are conserved and the files form a chain; and if
      the clock gave the calls different stamps, every closed file is stored, with its index, under
      the name it was closed as. */
  lemma RotationConserves(c: Config, calls: seq<Call>)
    requires NoMarkers(calls)
    ensures var v := Run(c, EMPTY, calls); Everything(v) == EntriesOf(calls) && Chained(v)
    ensures var v := Run(c, EMPTY, calls);
            StampsDiffer(calls) ==>
              forall i :: 0 <= i < |v.past| ==> StoredAs(c, v, i)
  {
    RunConserves(c, EMPTY, calls);
    assert Everything(EMPTY) + EntriesOf(calls) == EntriesOf(calls);
    RunChains(c, EMPTY, calls);
    hide ArchivesOf, Run, Everything, Chained, ArchiveOf;
    var v := Run(c, EMPTY, calls);
    if StampsDiffer(calls) {
      RunNames(c, calls);
      forall i | 0 <= i < |v.past| ensures StoredAs(c, v, i) {
        ArchivesKept(c, v.past, i);
      }
    }
  }

  /** A closed file is in the directory, byte for byte and with its index. */
  ghost predicate StoredAs(c: Config, v: View, i: nat)
    requires i < |v.past|
  {
    && v.past[i].name in DiskOf(c, v).archives
    && DiskOf(c, v).archives[v.past[i].name] == Archive(FileBytes(Entries(v.past[i].lines)), IndexOf(c.e, v.past[i].lines))
  }

  // ----- rows and line numbers over whole runs -----

  /** Every file was written from empty, and the counter counts the rows of the live one. */
  ghost predicate WrittenFromEmpty(v: View) {
    && Counted(v.live) && v.count == |Listed(v.live)|
    && forall i :: 0 <= i < |v.past| ==> Counted(v.past[i].lines)
  }

  lemma AddingCounted(v: View, entry: AuditEntry)
    requires WrittenFromEmpty(v)
    ensures WrittenFromEmpty(Adding(v, entry))
  {
    hide Bindable;
    var live := Adding(v, entry).live;
    assert live[..|v.live|] == v.live;
    forall i | 0 <= i < |live|
      ensures live[i].row == if Bindable(live[i].entry) then Some(|Listed(live[..i])|) else None
    {
      assert live[..i] == v.live[..i];
    }
  }

  lemma AppendCounted(c: Config, v: View, call: Call)
    requires WrittenFromEmpty(v)
    ensures WrittenFromEmpty(Append(c, v, call))
  {
    hide Adding, DiskOf, ShouldRotate, Counted;
    var closed := Closing(c, v, call.stamp);
    assert Counted([]) by { AddingNothing(); }
    assert WrittenFromEmpty(closed);
    AddingCounted(closed, Marker(c, call.stamp, call.now));
    AddingCounted(Ready(c, v, call), call.entry);
  }

  lemma AddingNothing()
    ensures Counted([])
  {
  }

  lemma {:induction false} RunCounted(c: Config, v: View, calls: seq<Call>)
    requires WrittenFromEmpty(v)
    ensures WrittenFromEmpty(Run(c, v, calls))
  {
    hide WrittenFromEmpty, Append;
    if calls != [] {
      RunCounted(c, v, calls[..|calls| - 1]);
      AppendCounted(c, Run(c, v, calls[..|calls| - 1]), calls[|calls| - 1]);
    }
  }

  lemma {:induction false} BindableWithoutMarkers(entries: seq<AuditEntry>)
    requires forall i :: 0 <= i < |entries| && entries[i].IsMarker() ==> Bindable(entries[i])
    ensures AllBindable(WithoutMarkers(entries)) <==> AllBindable(entries)
  {
    hide Bindable;
    if entries != [] {
      var init := entries[..|entries| - 1];
      BindableWithoutMarkers(init);
      OneMoreBindable(init, entries[|entries| - 1]);
      assert init + [entries[|entries| - 1]] == entries;
      OneMoreBindable(WithoutMarkers(init), entries[|entries| - 1]);
      assert WithoutMarkers(init) + [] == WithoutMarkers(init);
    }
  }

  lemma OneMoreBindable(entries: seq<AuditEntry>, last: AuditEntry)
    ensures AllBindable(entries + [last]) <==> AllBindable(entries) && Bindable(last)
  {
    assert (entries + [last])[|entries|] == last;
    if AllBindable(entries + [last]) {
      assert forall i :: 0 <= i < |entries| ==> entries[i] == (entries + [last])[i];
    }
  }

  lemma BothBindable(a: seq<AuditEntry>, b: seq<AuditEntry>)
    ensures AllBindable(a + b) <==> AllBindable(a) && AllBindable(b)
  {
    if AllBindable(a + b) {
      assert forall i :: 0 <= i < |a| ==> a[i] == (a + b)[i];
      assert forall i :: 0 <= i < |b| ==> b[i] == (a + b)[|a| + i];
    }
  }

  /** Every marker in the files was written by a rotation, so it can be bound. */
  ghost predicate MarkersBindable(v: View) {
    && OwnMarkersBindable(v.live)
    && forall k :: 0 <= k < |v.past| ==> OwnMarkersBindable(v.past[k].lines)
  }

  lemma AppendMarkersBindable(c: Config, v: View, call: Call)
    requires MarkersBindable(v) && !call.entry.IsMarker()
    ensures MarkersBindable(Append(c, v, call))
  {
    hide DiskOf, ShouldRotate, Bindable;
    MarkerBindable(c, call.stamp, call.now);
  }

  lemma MarkerBindable(c: Config, stamp: string, now: int)
    ensures Bindable(Marker(c, stamp, now)) && Marker(c, stamp, now).IsMarker()
  {
  }

  lemma {:induction false} RunMarkersBindable(c: Config, v: View, calls: seq<Call>)
    requires MarkersBindable(v) && NoMarkers(calls)
    ensures MarkersBindable(Run(c, v, calls))
  {
    hide MarkersBindable, Append;
    if calls != [] {
      RunMarkersBindable(c, v, calls[..|calls| - 1]);
      AppendMarkersBindable(c, Run(c, v, calls[..|calls| - 1]), calls[|calls| - 1]);
    }
  }

  ghost predicate FilesBindable(past: seq<Closed>) {
    forall k :: 0 <= k < |past| ==> AllBindable(Entries(past[k].lines))
  }

  ghost predicate OwnMarkersBindable(lines: seq<Line>) {
    forall i :: 0 <= i < |lines| && lines[i].entry.IsMarker() ==> Bindable(lines[i].entry)
  }

  lemma FileBindable(lines: seq<Line>)
    requires OwnMarkersBindable(lines)
    ensures AllBindable(WithoutMarkers(Entries(lines))) <==> AllBindable(Entries(lines))
  {
    hide Bindable, AllBindable;
    BindableWithoutMarkers(Entries(lines));
  }

  lemma {:induction false} PastBindable(past: seq<Closed>)
    requires forall k :: 0 <= k < |past| ==> OwnMarkersBindable(past[k].lines)
    ensures AllBindable(PastEntries(past)) <==> FilesBindable(past)
  {
    hide AllBindable, Bindable, OwnMarkersBindable;
    if past == [] {
      BothBindableEmpty();
    } else {
      var init, last := past[..|past| - 1], past[|past| - 1];
      PastBindable(init);
      BothBindable(PastEntries(init), WithoutMarkers(Entries(last.lines)));
      FileBindable(last.lines);
      assert FilesBindable(past) <==> FilesBindable(init) && AllBindable(Entries(last.lines));
    }
  }

  lemma BothBindableEmpty()
    ensures AllBindable([])
  {
  }

  /** The index of every file agrees with the file, and the counter with the live one. */
  ghost predicate AgreesEverywhere(c: Config, v: View) {
    && Faithful(c.e, v.live) && v.count == |v.live|
    && forall k :: 0 <= k < |v.past| ==> Faithful(c.e, v.past[k].lines)
  }

  /** For every run from an empty log without reopening: rows, offsets and also line numbers agree with
      the scan in the live file and in every closed one, and the counter with the live file, exactly
      when sqlite3 could bind every entry that was appended. */
  lemma RunAgreesIffBindable(c: Config, calls: seq<Call>)
    requires NoMarkers(calls)
    ensures AgreesEverywhere(c, Run(c, EMPTY, calls)) <==> AllBindable(EntriesOf(calls))
  {
    hide Faithful, AllBindable, Counted, Run, Everything;
    var v := Run(c, EMPTY, calls);
    AddingNothing();
    RunCounted(c, EMPTY, calls);
    RunMarkersBindable(c, EMPTY, calls);
    RunConserves(c, EMPTY, calls);
    assert Everything(EMPTY) + EntriesOf(calls) == EntriesOf(calls) by { NothingYet(); }
    EverythingBindable(v);
    FaithfulIffBindable(c.e, v.live);
    forall k | 0 <= k < |v.past|
      ensures Faithful(c.e, v.past[k].lines) <==> AllBindable(Entries(v.past[k].lines))
    {
      FaithfulIffBindable(c.e, v.past[k].lines);
    }
    if AllBindable(Entries(v.live)) { CountedIsNumbered(v.live); }
  }

  lemma NothingYet()
    ensures Everything(EMPTY) == []
  {
  }

  lemma EverythingBindable(v: View)
    requires MarkersBindable(v)
    ensures AllBindable(Everything(v)) <==> AllBindable(Entries(v.live)) && FilesBindable(v.past)
  {
    hide AllBindable, Bindable, OwnMarkersBindable, FilesBindable;
    PastBindable(v.past);
    BothBindable(PastEntries(v.past), WithoutMarkers(Entries(v.live)));
    FileBindable(v.live);
  }

  /** An entry that sqlite3 cannot bind, as the first of a log: the scan finds it and the index does
      not, the counter stays at zero, and the next entry gets a line number that is not its own. */
  lemma UnbindableFirst(c: Config, bad: Call, good: Call)
    requires c.maxSize <= 0 || |LineBytes(bad.entry)| < c.maxSize
    requires !bad.entry.IsMarker() && !good.entry.IsMarker() && !Bindable(bad.entry) && Bindable(good.entry)
    ensures var v := Append(c, EMPTY, bad);
            && ScanId(Entries(v.live), bad.entry.RecordId()) == Some(bad.entry.ToJson())
            && Lookup(DiskOf(c, v).file, DiskOf(c, v).index, bad.entry.RecordId()) == None
            && v.count == 0 && |v.live| == 1
            && Append(c, v, good).live[1] == Line(good.entry, Some(0))
  {
    hide LineBytes, Lookup, Bindable, IndexOf, ScanId, FileBytes;
    var v := Append(c, EMPTY, bad);
    OnlyLine(c, bad);
    FileOfOne(bad.entry);
    OneScanned(bad.entry);
    LookupIsLast(c.e, v.live, [], bad.entry.RecordId());
    assert FileBytes(Entries(v.live)) + [] == FileBytes(Entries(v.live));
  }

  lemma OnlyLine(c: Config, bad: Call)
    requires !bad.entry.IsMarker() && !Bindable(bad.entry)
    ensures var v := Append(c, EMPTY, bad);
            v == View([Line(bad.entry, None)], 0, []) && Entries(v.live) == [bad.entry] && Listed(v.live) == []
  {
    hide Bindable, LineBytes, IndexOf;
    var live := [Line(bad.entry, None)];
    assert live[..0] == [] && Listed(live) == Listed(live[..0]) + [];
  }

  lemma FileOfOne(entry: AuditEntry)
    ensures FileBytes([entry]) == LineBytes(entry)
  {
    hide LineBytes;
    assert [entry][..0] == [];
  }

  lemma OneScanned(entry: AuditEntry)
    ensures ScanId([entry], entry.RecordId()) == Some(entry.ToJson()) && ScanId([], entry.RecordId()) == None
  {
    hide RecordIdOf;
  }

  /** Such an entry: a commitment whose measurement method is a list, a dictionary or an integer beyond 64
      bits, but not one that states a text, a truth value or the largest integer of 64 bits. */
  lemma UnbindableExample(now: int, bad: Json, good: Json)
    requires bad in {Arr([Str("x")]), Obj(map[]), Num(9223372036854775808), Num(-9223372036854775809)}
    requires good in {Str("CSPRNG"), Bool(true), Null, Num(9223372036854775807), Num(-9223372036854775808)}
    ensures !Bindable(Stating(now, bad)) && Bindable(Stating(now, good))
  {
  }

  /** A commitment of the order "A" that states the method. */
  function Stating(now: int, measurement: Json): AuditEntry {
    AuditEntry(now, PHASE_COMMITMENT, "A", Obj(map["order_id" := Str("A"), "seed_measurement_method" := measurement]),
               Obj(map[]), Obj(map[]))
  }

  // ----- runs within one file -----

  /** No call of the run finds a rotation due. */
  ghost predicate StaysInFile(c: Config, v: View, calls: seq<Call>) {
    forall i :: 0 <= i < |calls| ==> !ShouldRotate(c, DiskOf(c, Run(c, v, calls[..i])))
  }

  /** The entries that sqlite3 can bind. */
  function BindableOnes(entries: seq<AuditEntry>): seq<AuditEntry> {
    if entries == [] then []
    else
      var last := entries[|entries| - 1];
      BindableOnes(entries[..|entries| - 1]) + if Bindable(last) then [last] else []
  }

  lemma AppendShape(c: Config, v: View, call: Call)
    requires !call.entry.IsMarker()
    ensures var w := Append(c, v, call);
            if ShouldRotate(c, DiskOf(c, v))
            then |w.past| == |v.past| + 1 && Entries(w.live) == [Marker(c, call.stamp, call.now), call.entry]
            else && w.past == v.past && Entries(w.live) == Entries(v.live) + [call.entry]
                 && Listed(w.live) == Listed(v.live) + if Bindable(call.entry) then [call.entry] else []
  {
    hide ShouldRotate, DiskOf, Bindable, Marker;
    var ready := Ready(c, v, call);
    var w := Append(c, v, call);
    assert w.live[..|w.live| - 1] == ready.live;
    assert Entries(w.live) == Entries(ready.live) + [call.entry];
  }

  /** A run stays in the live file exactly when no rotation is due during it, and then adds its
      bindable entries to the listed ones; otherwise the live file has only markers and entries of
      the run. */
  lemma {:induction false} RunShape(c: Config, v: View, calls: seq<Call>)
    requires NoMarkers(calls)
    ensures var w := Run(c, v, calls);
            && |v.past| <= |w.past|
            && (w.past == v.past <==> StaysInFile(c, v, calls))
            && (w.past == v.past ==>
                  && Entries(w.live) == Entries(v.live) + EntriesOf(calls)
                  && Listed(w.live) == Listed(v.live) + BindableOnes(EntriesOf(calls)))
            && (w.past != v.past ==>
                  && |v.past| < |w.past|
                  && forall x :: x in Entries(w.live) ==> x.IsMarker() || x in EntriesOf(calls))
  {
    hide ShouldRotate, DiskOf, Bindable, Append, Listed;
    if calls != [] {
      var n := |calls| - 1;
      var init, call := calls[..n], calls[n];
      var u := Run(c, v, init);
      RunShape(c, v, init);
      AppendShape(c, u, call);
      assert EntriesOf(calls) == EntriesOf(init) + [call.entry];
      assert EntriesOf(calls)[..n] == EntriesOf(init);
      StaysStep(c, v, calls);
    }
  }

  lemma StaysStep(c: Config, v: View, calls: seq<Call>)
    requires calls != []
    ensures var init := calls[..|calls| - 1];
            StaysInFile(c, v, calls) <==> StaysInFile(c, v, init) && !ShouldRotate(c, DiskOf(c, Run(c, v, init)))
  {
    hide ShouldRotate, DiskOf, Run;
    var init := calls[..|calls| - 1];
    assert forall i :: 0 <= i < |init| ==> init[..i] == calls[..i];
  }

  /** Below a limit in bytes, a run stays in the live file exactly when the file is still below the
      limit in front of the last line. */
  lemma {:induction false} StaysIffFits(c: Config, v: View, calls: seq<Call>)
    requires NoMarkers(calls) && calls != [] && 0 < c.maxSize
    ensures StaysInFile(c, v, calls)
            <==> |FileBytes(Entries(v.live) + EntriesOf(calls[..|calls| - 1]))| < c.maxSize
    decreases |calls|
  {
    hide FileBytes, Entries, Run, StaysInFile;
    var init := calls[..|calls| - 1];
    StaysStep(c, v, calls);
    RunShape(c, v, init);
    if init == [] {
      StaysNowhere(c, v);
      assert Entries(v.live) + EntriesOf(init) == Entries(v.live);
    } else {
      StaysIffFits(c, v, init);
      var front, last := init[..|init| - 1], init[|init| - 1];
      assert EntriesOf(init) == EntriesOf(front) + [last.entry];
      assert Entries(v.live) + EntriesOf(init) == (Entries(v.live) + EntriesOf(front)) + [last.entry];
      FileBytesConcat(Entries(v.live) + EntriesOf(front), [last.entry]);
    }
  }

  lemma StaysNowhere(c: Config, v: View)
    ensures Run(c, v, []) == v && StaysInFile(c, v, [])
  {
  }

  /** With a limit of zero a rotation is due exactly behind a counted row. */
  lemma ZeroLimit(c: Config, v: View)
    requires c.maxSize <= 0
    ensures ShouldRotate(c, DiskOf(c, v)) <==> v.count != 0
  {
  }

  /** With a limit of zero no run that follows a counted row stays in the file. */
  lemma ZeroLimitRotates(c: Config, v: View, calls: seq<Call>)
    requires c.maxSize <= 0 && 0 < v.count && calls != []
    ensures !StaysInFile(c, v, calls)
  {
    assert calls[..0] == [];
    assert ShouldRotate(c, DiskOf(c, Run(c, v, calls[..0])));
  }

  /** After an append the live file without its last line is below the limit, or holds no more than
      a marker and the entry; with a limit of zero always the latter, or nothing before it was ever
      counted. */
  lemma AppendBounded(c: Config, v: View, call: Call)
    requires !call.entry.IsMarker()
    ensures var live := Entries(Append(c, v, call).live);
            && live != [] && live[|live| - 1] == call.entry
            && (|live| <= 2
                || (0 < c.maxSize && |FileBytes(live[..|live| - 1])| < c.maxSize)
                || (c.maxSize <= 0 && v.count == 0))
  {
    var live := Entries(Append(c, v, call).live);
    assert live == Entries(v.live) + [call.entry] ==> live[..|live| - 1] == Entries(v.live);
  }
}
