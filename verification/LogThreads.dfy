/** Threads that append through one log: each append is a critical section of several steps under
    one lock, and threads are scheduled in any order between the steps. */
module LogThreads {
  import opened Outcomes
  import opened Bytes
  import opened AuditStore
  import opened Rotation

  /** Where a thread stands in `_append`. The flag tells the marker of a rotation from the entry of
      the call. */
  datatype PC =
    | Idle
    | Check
    | Write(marker: bool)
    | Index(marker: bool, offset: nat)
    | Count(marker: bool)

  datatype Thread = Thread(todo: seq<Call>, pc: PC)

  /** `view` and `order` are history: the lines fully accounted for, and the calls that have returned
      or raised with the thread that made them. */
  datatype State = State(
    disk: Disk, threads: seq<Thread>, holder: Option<nat>, view: View, order: seq<(nat, Call)>)

  function EntryAt(c: Config, call: Call, marker: bool): AuditEntry {
    if marker then Marker(c, call.stamp, call.now) else call.entry
  }

  function Moved(s: State, t: nat, pc: PC): State
    requires t < |s.threads|
  {
    s.(threads := s.threads[t := s.threads[t].(pc := pc)])
  }

  /** The call of thread t is over, and the lock is free again. */
  function Ended(s: State, t: nat, call: Call): State
    requires t < |s.threads| && s.threads[t].todo != []
  {
    s.(threads := s.threads[t := Thread(s.threads[t].todo[1..], Idle)], holder := None, order := s.order + [(t, call)])
  }

  /** One step of thread t; a thread that waits for the lock or has nothing to do stays put. */
  function Step(c: Config, s: State, t: nat): State {
    if t >= |s.threads| || s.threads[t].todo == [] then s
    else
      var call := s.threads[t].todo[0];
      match s.threads[t].pc
      case Idle =>
        if s.holder.Some? then s else Moved(s.(holder := Some(t)), t, Check)
      case Check =>
        if ShouldRotate(c, s.disk)
        then Moved(s.(disk := ArchiveStep(c, s.disk, call.stamp), view := Closing(c, s.view, call.stamp)), t, Write(true))
        else Moved(s, t, Write(false))
      case Write(m) =>
        Moved(s.(disk := WriteStep(s.disk, EntryAt(c, call, m))), t, Index(m, |s.disk.file|))
      case Index(m, offset) =>
        var entry := EntryAt(c, call, m);
        if Bindable(entry) then Moved(s.(disk := IndexStep(c, s.disk, entry, offset)), t, Count(m))
        else Ended(s.(view := Adding(s.view, entry)), t, call)
      case Count(m) =>
        var counted := s.(disk := CountStep(s.disk), view := Adding(s.view, EntryAt(c, call, m)));
        if m then Moved(counted, t, Write(false)) else Ended(counted, t, call)
  }

  /** The state after a schedule, which names the thread that moves at each step. */
  function Exec(c: Config, s: State, schedule: seq<nat>): State {
    if schedule == [] then s
    else Step(c, Exec(c, s, schedule[..|schedule| - 1]), schedule[|schedule| - 1])
  }

  function Start(c: Config, v: View, programs: seq<seq<Call>>): State {
    State(DiskOf(c, v), seq(|programs|, i requires 0 <= i < |programs| => Thread(programs[i], Idle)), None, v, [])
  }

  // ----- the invariant -----

  function CallsOf(order: seq<(nat, Call)>): seq<Call> {
    seq(|order|, i requires 0 <= i < |order| => order[i].1)
  }

  /** The calls of one thread, in the order in which they took effect. */
  function MadeBy(order: seq<(nat, Call)>, t: nat): seq<Call> {
    if order == [] then []
    else
      var last := order[|order| - 1];
      MadeBy(order[..|order| - 1], t) + if last.0 == t then [last.1] else []
  }

  /** What is stored while the holder of the lock stands at pc. */
  ghost predicate OnDisk(c: Config, d: Disk, v: View, call: Call, pc: PC) {
    var whole := DiskOf(c, v);
    match pc
    case Idle => d == whole
    case Check => d == whole
    case Write(_) => d == whole
    case Index(m, offset) => d == WriteStep(whole, EntryAt(c, call, m)) && offset == |whole.file|
    case Count(m) =>
      var entry := EntryAt(c, call, m);
      Bindable(entry) && d == IndexStep(c, WriteStep(whole, entry), entry, |whole.file|)
  }

  /** What remains of the append in progress completes it as if it had run alone. */
  ghost predicate Completes(c: Config, base: View, v: View, call: Call, pc: PC) {
    match pc
    case Idle => v == base
    case Check => v == base
    case _ =>
      var left := if pc.marker then Adding(v, EntryAt(c, call, true)) else v;
      Adding(left, call.entry) == Append(c, base, call)
  }

  ghost predicate Holding(s: State, t: nat) {
    s.holder == Some(t) && t < |s.threads| && s.threads[t].todo != []
  }

  ghost predicate Locked(s: State) {
    && (s.holder.Some? ==> Holding(s, s.holder.value) && s.threads[s.holder.value].pc != Idle)
    && (forall t :: 0 <= t < |s.threads| && s.holder != Some(t) ==> s.threads[t].pc == Idle)
  }

  ghost predicate Accounted(c: Config, v0: View, s: State) {
    var base := Run(c, v0, CallsOf(s.order));
    if s.holder.Some? then
      var t := s.holder.value;
      && Holding(s, t)
      && OnDisk(c, s.disk, s.view, s.threads[t].todo[0], s.threads[t].pc)
      && Completes(c, base, s.view, s.threads[t].todo[0], s.threads[t].pc)
    else s.disk == DiskOf(c, s.view) && s.view == base
  }

  ghost predicate InProgramOrder(s: State, programs: seq<seq<Call>>) {
    && |s.threads| == |programs|
    && forall t :: 0 <= t < |programs| ==> MadeBy(s.order, t) + s.threads[t].todo == programs[t]
  }

  ghost predicate NoMarkerCalls(s: State) {
    forall t, i :: 0 <= t < |s.threads| && 0 <= i < |s.threads[t].todo| ==> !s.threads[t].todo[i].entry.IsMarker()
  }

  ghost predicate Inv(c: Config, v0: View, programs: seq<seq<Call>>, s: State) {
    Locked(s) && NoMarkerCalls(s) && Accounted(c, v0, s) && InProgramOrder(s, programs)
  }

  lemma StartInv(c: Config, v0: View, programs: seq<seq<Call>>)
    requires forall t :: 0 <= t < |programs| ==> NoMarkers(programs[t])
    ensures Inv(c, v0, programs, Start(c, v0, programs))
  {
    var s := Start(c, v0, programs);
    assert CallsOf(s.order) == [];
    forall t | 0 <= t < |programs| ensures MadeBy(s.order, t) + s.threads[t].todo == programs[t] {
      assert MadeBy(s.order, t) == [];
    }
    forall t, i | 0 <= t < |s.threads| && 0 <= i < |s.threads[t].todo|
      ensures !s.threads[t].todo[i].entry.IsMarker()
    {
      assert NoMarkers(programs[t]);
    }
  }

  lemma StepLocked(c: Config, s: State, t: nat)
    requires Locked(s) && NoMarkerCalls(s)
    ensures Locked(Step(c, s, t)) && NoMarkerCalls(Step(c, s, t))
  {
    hide ShouldRotate, ArchiveStep, IndexStep, WriteStep, EntryAt, Bindable, Adding;
  }

  lemma MadeByMore(order: seq<(nat, Call)>, t: nat, call: Call, u: nat)
    ensures MadeBy(order + [(t, call)], u) == MadeBy(order, u) + if t == u then [call] else []
  {
    var more := order + [(t, call)];
    assert more[..|more| - 1] == order;
  }

  /** Only a step that ends a call changes the order or what a thread still has to do. */
  lemma StepInProgramOrder(c: Config, s: State, t: nat, programs: seq<seq<Call>>)
    requires Locked(s) && InProgramOrder(s, programs)
    ensures InProgramOrder(Step(c, s, t), programs)
  {
    hide ShouldRotate, ArchiveStep, IndexStep, WriteStep, EntryAt, Bindable, Adding, MadeBy;
    var n := Step(c, s, t);
    if n.order == s.order {
      assert forall u :: 0 <= u < |s.threads| ==> n.threads[u].todo == s.threads[u].todo;
    } else {
      var call, todo := s.threads[t].todo[0], s.threads[t].todo;
      assert n.order == s.order + [(t, call)];
      forall u | 0 <= u < |programs| ensures MadeBy(n.order, u) + n.threads[u].todo == programs[u] {
        MadeByMore(s.order, t, call, u);
        if u == t {
          assert MadeBy(s.order, t) + todo == MadeBy(s.order, t) + [call] + todo[1..];
        }
      }
    }
  }

  /** The check of the holder: rotating closes the live file on disk and in the entries alike. */
  lemma CheckAccounted(c: Config, base: View, d: Disk, call: Call)
    requires d == DiskOf(c, base) && !call.entry.IsMarker()
    ensures if ShouldRotate(c, d)
            then var v := Closing(c, base, call.stamp);
                 OnDisk(c, ArchiveStep(c, d, call.stamp), v, call, Write(true)) && Completes(c, base, v, call, Write(true))
            else OnDisk(c, d, base, call, Write(false)) && Completes(c, base, base, call, Write(false))
  {
    ClosingOnDisk(c, base, call.stamp);
  }

  lemma CountAccounted(c: Config, d: Disk, v: View, call: Call, m: bool)
    requires OnDisk(c, d, v, call, Count(m))
    ensures CountStep(d) == DiskOf(c, Adding(v, EntryAt(c, call, m)))
  {
    hide Bindable, Adding, DiskOf, IndexStep, WriteStep, CountStep, EntryAt;
    AddingOnDisk(c, v, EntryAt(c, call, m));
  }

  lemma RunOneMore(c: Config, v0: View, order: seq<(nat, Call)>, t: nat, call: Call)
    ensures Run(c, v0, CallsOf(order + [(t, call)])) == Append(c, Run(c, v0, CallsOf(order)), call)
  {
    var calls := CallsOf(order + [(t, call)]);
    assert calls[..|calls| - 1] == CallsOf(order);
  }

  lemma StepCount(c: Config, v0: View, s: State, t: nat)
    requires s.holder == Some(t) && Accounted(c, v0, s) && s.threads[t].pc.Count?
    ensures Accounted(c, v0, Step(c, s, t))
  {
    hide DiskOf, Append, Run, IndexStep, WriteStep, CountStep, Adding, Marker;
    var call, m := s.threads[t].todo[0], s.threads[t].pc.marker;
    CountAccounted(c, s.disk, s.view, call, m);
    RunOneMore(c, v0, s.order, t, call);
  }

  lemma StepCheck(c: Config, v0: View, s: State, t: nat)
    requires s.holder == Some(t) && Accounted(c, v0, s) && s.threads[t].pc.Check?
    requires !s.threads[t].todo[0].entry.IsMarker()
    ensures Accounted(c, v0, Step(c, s, t))
  {
    hide DiskOf, ShouldRotate, ArchiveStep, Append, Run, Closing, Adding, Marker;
    CheckAccounted(c, s.view, s.disk, s.threads[t].todo[0]);
  }

  lemma StepWrite(c: Config, v0: View, s: State, t: nat)
    requires s.holder == Some(t) && Accounted(c, v0, s)
    requires s.threads[t].pc.Write?
    ensures Accounted(c, v0, Step(c, s, t))
  {
    hide DiskOf, Append, Run, Adding, EntryAt, LineBytes, Indexed, Bindable;
  }

  /** The row is put into the index, or the call raises and leaves the line alone. */
  lemma StepIndex(c: Config, v0: View, s: State, t: nat)
    requires s.holder == Some(t) && Accounted(c, v0, s) && s.threads[t].pc.Index?
    ensures Accounted(c, v0, Step(c, s, t))
  {
    hide DiskOf, Append, Run, Adding, Marker, LineBytes, Indexed, Bindable, WriteStep, IndexStep;
    var call, m := s.threads[t].todo[0], s.threads[t].pc.marker;
    MarkerBindable(c, call.stamp, call.now);
    AddingOnDisk(c, s.view, EntryAt(c, call, m));
    RunOneMore(c, v0, s.order, t, call);
  }

  lemma StepAccounted(c: Config, v0: View, s: State, t: nat)
    requires Locked(s) && NoMarkerCalls(s) && Accounted(c, v0, s)
    ensures Accounted(c, v0, Step(c, s, t))
  {
    if t < |s.threads| && s.threads[t].todo != [] {
      match s.threads[t].pc {
        case Idle => StepIdle(c, v0, s, t);
        case Check => StepCheck(c, v0, s, t);
        case Write(m) => StepWrite(c, v0, s, t);
        case Index(m, offset) => StepIndex(c, v0, s, t);
        case Count(m) => StepCount(c, v0, s, t);
      }
    }
  }

  lemma StepIdle(c: Config, v0: View, s: State, t: nat)
    requires Locked(s) && Accounted(c, v0, s) && t < |s.threads| && s.threads[t].todo != []
    requires s.threads[t].pc.Idle?
    ensures Accounted(c, v0, Step(c, s, t))
  {
    hide DiskOf, Append, Run, Adding, EntryAt;
  }

  /** The invariant holds in every state that any schedule reaches. */
  lemma {:induction false} ExecInv(c: Config, v0: View, programs: seq<seq<Call>>, schedule: seq<nat>)
    requires forall t :: 0 <= t < |programs| ==> NoMarkers(programs[t])
    ensures Inv(c, v0, programs, Exec(c, Start(c, v0, programs), schedule))
  {
    if schedule == [] {
      StartInv(c, v0, programs);
    } else {
      hide Locked, NoMarkerCalls, Accounted, InProgramOrder, Step, Start;
      var init, t := schedule[..|schedule| - 1], schedule[|schedule| - 1];
      ExecInv(c, v0, programs, init);
      var s := Exec(c, Start(c, v0, programs), init);
      StepLocked(c, s, t);
      StepAccounted(c, v0, s, t);
      StepInProgramOrder(c, s, t, programs);
    }
  }

  // ----- what the invariant means -----

  /** Any interleaving equals a sequential order: whenever the lock is free, what is stored is what
      running the calls made so far one after another stores, each thread's calls appear in its own
      order, and once no thread has anything left every call of every program is among them. */
  lemma InterleavingIsSequential(c: Config, v0: View, programs: seq<seq<Call>>, schedule: seq<nat>)
    requires forall t :: 0 <= t < |programs| ==> NoMarkers(programs[t])
    ensures var s := Exec(c, Start(c, v0, programs), schedule);
            && |s.threads| == |programs|
            && (s.holder.None? ==> s.disk == DiskOf(c, Run(c, v0, CallsOf(s.order))))
            && (forall t :: 0 <= t < |programs| ==> MadeBy(s.order, t) <= programs[t])
            && (forall t :: 0 <= t < |programs| && s.threads[t].todo == [] ==> MadeBy(s.order, t) == programs[t])
  {
    hide DiskOf, Run, Exec, Start, Locked, NoMarkerCalls;
    ExecInv(c, v0, programs, schedule);
    var s := Exec(c, Start(c, v0, programs), schedule);
    forall t | 0 <= t < |programs|
      ensures MadeBy(s.order, t) <= programs[t]
      ensures s.threads[t].todo == [] ==> MadeBy(s.order, t) == programs[t]
    {
      assert MadeBy(s.order, t) + s.threads[t].todo == programs[t];
    }
  }

  /** Every row of the index points at the beginning of a complete line that reads back as the record
      of that row: the last of the given lines with its id that was put into the index. */
  ghost predicate RowsPoint(d: Disk, lines: seq<Line>) {
    forall id :: id in d.index ==> RowPoints(d, lines, id, d.index[id])
  }

  ghost predicate RowPoints(d: Disk, lines: seq<Line>, id: string, row: Row) {
    match LastListed(lines, id)
    case None => false
    case Some(i) =>
      && row.offset == Offset(Entries(lines), i) && lines[i].row == Some(row.line)
      && ReadRecord(ReadLine(d.file, row.offset)) == Some(lines[i].entry.ToJson())
  }

  lemma RowsOfIndex(c: Config, d: Disk, lines: seq<Line>, after: seq<byte>)
    requires d.index == IndexOf(c.e, lines) && d.file == FileBytes(Entries(lines)) + after
    ensures RowsPoint(d, lines)
  {
    hide FileBytes, ReadRecord, ReadLine, IndexOf;
    forall id | id in d.index ensures RowPoints(d, lines, id, d.index[id]) {
      IndexIsLast(c.e, lines, id);
      ReadRecordOfEntry(Entries(lines), LastListed(lines, id).value, after);
    }
  }

  /** Every line has the row of its own number, and the counter is the number of lines. */
  ghost predicate WellNumbered(v: View) {
    Numbered(v.live) && v.count == |v.live|
  }

  ghost predicate BindableCalls(s: State) {
    forall t, i :: 0 <= t < |s.threads| && 0 <= i < |s.threads[t].todo| ==> Bindable(s.threads[t].todo[i].entry)
  }

  lemma StepNumbered(c: Config, s: State, t: nat)
    requires BindableCalls(s) && WellNumbered(s.view)
    ensures BindableCalls(Step(c, s, t)) && WellNumbered(Step(c, s, t).view)
  {
    hide ShouldRotate, ArchiveStep, IndexStep, WriteStep, Bindable, Marker;
    if t < |s.threads| && s.threads[t].todo != [] {
      var call := s.threads[t].todo[0];
      MarkerBindable(c, call.stamp, call.now);
    }
  }

  ghost predicate AllCallsBindable(programs: seq<seq<Call>>) {
    forall t, i :: 0 <= t < |programs| && 0 <= i < |programs[t]| ==> Bindable(programs[t][i].entry)
  }

  lemma {:induction false} ExecNumbered(c: Config, v0: View, programs: seq<seq<Call>>, schedule: seq<nat>)
    requires AllCallsBindable(programs) && WellNumbered(v0)
    ensures var s := Exec(c, Start(c, v0, programs), schedule); BindableCalls(s) && WellNumbered(s.view)
  {
    if schedule == [] {
      hide Bindable;
      assert Exec(c, Start(c, v0, programs), schedule) == Start(c, v0, programs);
    } else {
      hide BindableCalls, WellNumbered, Step, Start;
      ExecNumbered(c, v0, programs, schedule[..|schedule| - 1]);
      StepNumbered(c, Exec(c, Start(c, v0, programs), schedule[..|schedule| - 1]), schedule[|schedule| - 1]);
    }
  }

  /** Between any two steps of any schedule, also in the middle of an append or of a rotation, every
      row of the index points at a complete line of its record. When sqlite3 can bind every entry, the
      rows also give the lines distinct and contiguous numbers. */
  lemma RowsAlwaysPoint(c: Config, v0: View, programs: seq<seq<Call>>, schedule: seq<nat>)
    requires forall t :: 0 <= t < |programs| ==> NoMarkers(programs[t])
    ensures var s := Exec(c, Start(c, v0, programs), schedule);
            exists lines :: RowsPoint(s.disk, lines) && s.view.live <= lines && |lines| <= |s.view.live| + 1
              && (AllCallsBindable(programs) && WellNumbered(v0) ==> Numbered(lines))
  {
    hide RowsPoint, Numbered, Exec, Start, Accounted, Locked, NoMarkerCalls, InProgramOrder;
    ExecInv(c, v0, programs, schedule);
    var s := Exec(c, Start(c, v0, programs), schedule);
    RowsOfState(c, v0, s);
    if AllCallsBindable(programs) && WellNumbered(v0) { ExecNumbered(c, v0, programs, schedule); }
  }

  /** The rows point into some lines: those accounted for, and at most the one in progress. */
  ghost predicate RowsAreOf(d: Disk, v: View) {
    exists lines :: RowsPoint(d, lines) && v.live <= lines && |lines| <= |v.live| + 1
      && (WellNumbered(v) ==> Numbered(lines))
  }

  lemma RowsOfWhole(c: Config, d: Disk, v: View, after: seq<byte>)
    requires d.index == IndexOf(c.e, v.live) && d.file == FileBytes(Entries(v.live)) + after
    ensures RowsAreOf(d, v)
  {
    hide RowsPoint, IndexOf, FileBytes;
    RowsOfIndex(c, d, v.live, after);
  }

  lemma RowsOfCount(c: Config, d: Disk, v: View, call: Call, m: bool)
    requires OnDisk(c, d, v, call, Count(m))
    ensures RowsAreOf(d, v)
  {
    hide RowsPoint, IndexOf, FileBytes, Bindable, EntryAt, LineBytes, Indexed;
    var entry := EntryAt(c, call, m);
    AddingOnDisk(c, v, entry);
    var lines := Adding(v, entry).live;
    assert FileBytes(Entries(lines)) + [] == FileBytes(Entries(lines));
    RowsOfIndex(c, d, lines, []);
  }

  lemma RowsOfState(c: Config, v0: View, s: State)
    requires Accounted(c, v0, s)
    ensures RowsAreOf(s.disk, s.view)
  {
    hide RowsAreOf, Completes, EntryAt, Run, FileBytes, LineBytes, IndexOf, Entries;
    var all := Entries(s.view.live);
    assert FileBytes(all) + [] == FileBytes(all);
    if s.holder.None? {
      RowsOfWhole(c, s.disk, s.view, []);
    } else {
      var call, pc := s.threads[s.holder.value].todo[0], s.threads[s.holder.value].pc;
      match pc {
        case Index(m, _) => RowsOfWhole(c, s.disk, s.view, LineBytes(EntryAt(c, call, m)));
        case Count(m) => RowsOfCount(c, s.disk, s.view, call, m);
        case _ => RowsOfWhole(c, s.disk, s.view, []);
      }
    }
  }

  // ----- progress -----

  /** How many steps at most a thread still needs: eight for each call that has not begun. */
  function Left(thread: Thread): nat {
    if thread.todo == [] then 0
    else
      8 * (|thread.todo| - 1)
      + match thread.pc
        case Idle => 8
        case Check => 7
        case Write(m) => if m then 6 else 3
        case Index(m, _) => if m then 5 else 2
        case Count(m) => if m then 4 else 1
  }

  function Work(threads: seq<Thread>): nat {
    if threads == [] then 0 else Work(threads[..|threads| - 1]) + Left(threads[|threads| - 1])
  }

  lemma {:induction false} WorkDrops(threads: seq<Thread>, t: nat, thread: Thread)
    requires t < |threads| && Left(thread) < Left(threads[t])
    ensures Work(threads[t := thread]) < Work(threads)
    decreases |threads|
  {
    hide Left;
    var n, changed := |threads| - 1, threads[t := thread];
    if t == n {
      assert changed[..n] == threads[..n];
    } else {
      WorkDrops(threads[..n], t, thread);
      assert changed[..n] == threads[..n][t := thread];
    }
  }

  ghost predicate Done(s: State) {
    forall t :: 0 <= t < |s.threads| ==> s.threads[t].todo == []
  }

  /** The thread that can move: the holder of the lock, or else any with a call left. */
  lemma SomeoneMoves(c: Config, s: State) returns (t: nat)
    requires Locked(s) && !Done(s)
    ensures Work(Step(c, s, t).threads) < Work(s.threads)
  {
    hide ShouldRotate, ArchiveStep, IndexStep, WriteStep, CountStep, Bindable, Adding, Closing, Marker, Work;
    if s.holder.Some? {
      t := s.holder.value;
    } else {
      t :| 0 <= t < |s.threads| && s.threads[t].todo != [];
    }
    var call := s.threads[t].todo[0];
    MarkerBindable(c, call.stamp, call.now);
    WorkDrops(s.threads, t, Step(c, s, t).threads[t]);
    assert Step(c, s, t).threads == s.threads[t := Step(c, s, t).threads[t]];
  }

  /** Every program has run, and what is stored is what its calls store in some sequential order. */
  ghost predicate Finished(c: Config, v0: View, programs: seq<seq<Call>>, s: State) {
    && Done(s) && s.holder == None && s.disk == DiskOf(c, Run(c, v0, CallsOf(s.order)))
    && forall t :: 0 <= t < |programs| ==> MadeBy(s.order, t) == programs[t]
  }

  /** Nothing waits for ever: from every state that a schedule reaches, also in the middle of an append,
      some continuation of the schedule finishes every program. */
  lemma {:induction false} Progress(c: Config, v0: View, programs: seq<seq<Call>>, schedule: seq<nat>)
    returns (more: seq<nat>)
    requires forall t :: 0 <= t < |programs| ==> NoMarkers(programs[t])
    ensures Finished(c, v0, programs, Exec(c, Start(c, v0, programs), schedule + more))
    decreases Work(Exec(c, Start(c, v0, programs), schedule).threads)
  {
    hide DiskOf, Run, Start, NoMarkerCalls, Step, Work;
    var s := Exec(c, Start(c, v0, programs), schedule);
    ExecInv(c, v0, programs, schedule);
    if Done(s) {
      more := [];
      assert schedule + [] == schedule;
      InterleavingIsSequential(c, v0, programs, schedule);
    } else {
      var t := SomeoneMoves(c, s);
      assert (schedule + [t])[..|schedule|] == schedule;
      var rest := Progress(c, v0, programs, schedule + [t]);
      more := [t] + rest;
      assert schedule + [t] + rest == schedule + more;
    }
  }
}
