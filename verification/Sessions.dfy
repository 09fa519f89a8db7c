/** Whole sessions of a log: runs of appends, with the log closed and opened again in between. */
module Sessions {
  import opened Outcomes
  import opened Ecdsa
  import opened AuditStore
  import opened Rotation

  datatype Event = Appending(call: Call) | Reopening

  /** The log after opening: every line is counted, and an index without rows is rebuilt. */
  function Reopened(v: View): View {
    if Listed(v.live) == [] then View(Numbering(Entries(v.live)), |v.live|, v.past) else v.(count := |v.live|)
  }

  /** Rebuilding raises: there is nothing in the index, but something in the file that sqlite3 cannot
      bind. */
  ghost predicate OpeningRaises(v: View) {
    Listed(v.live) == [] && !AllBindable(Entries(v.live))
  }

  /** The log after some events; none when an opening among them raised. */
  ghost function After(c: Config, v: View, events: seq<Event>): Option<View> {
    if events == [] then Some(v)
    else
      match After(c, v, events[..|events| - 1])
      case None => None
      case Some(w) => Next(c, w, events[|events| - 1])
  }

  ghost function Next(c: Config, v: View, event: Event): Option<View> {
    match event
    case Appending(call) => Some(Append(c, v, call))
    case Reopening => if OpeningRaises(v) then None else Some(Reopened(v))
  }

  function CallsOf(events: seq<Event>): seq<Call> {
    if events == [] then []
    else
      CallsOf(events[..|events| - 1])
      + match events[|events| - 1]
        case Appending(call) => [call]
        case Reopening => []
  }

  // ----- what every session keeps -----

  /** The index has a row for exactly the lines that sqlite3 can bind. */
  ghost predicate RowsAsBound(live: seq<Line>) {
    forall i :: 0 <= i < |live| ==> (live[i].row.Some? <==> Bindable(live[i].entry))
  }

  lemma AppendBound(c: Config, v: View, call: Call)
    requires RowsAsBound(v.live)
    ensures RowsAsBound(Append(c, v, call).live)
  {
    hide ShouldRotate, DiskOf, Bindable, Marker;
  }

  lemma {:induction false} NothingListed(live: seq<Line>)
    ensures Listed(live) == [] <==> forall i :: 0 <= i < |live| ==> live[i].row.None?
  {
    if live != [] { NothingListed(live[..|live| - 1]); }
  }

  lemma ReopenedBound(v: View)
    requires RowsAsBound(v.live) && !OpeningRaises(v)
    ensures RowsAsBound(Reopened(v).live) && Entries(Reopened(v).live) == Entries(v.live)
  {
    hide Bindable;
    if Listed(v.live) == [] {
      forall i | 0 <= i < |v.live| ensures Bindable(v.live[i].entry) {
        assert Bindable(Entries(v.live)[i]);
      }
    }
  }

  lemma {:induction false} AfterBound(c: Config, v: View, events: seq<Event>)
    requires RowsAsBound(v.live)
    ensures match After(c, v, events)
            case None => true
            case Some(w) => RowsAsBound(w.live)
  {
    hide RowsAsBound, OpeningRaises, Reopened, Append;
    if events != [] {
      var init := events[..|events| - 1];
      AfterBound(c, v, init);
      match (After(c, v, init), events[|events| - 1]) {
        case (Some(w), Appending(call)) => AppendBound(c, w, call);
        case (Some(w), Reopening) => if !OpeningRaises(w) { ReopenedBound(w); }
        case _ =>
      }
    }
  }

  /** The last entry with an id is the last listed one exactly when sqlite3 can bind it, and no listed
      one is unbindable. */
  lemma {:induction false} LastBound(live: seq<Line>, id: string)
    requires RowsAsBound(live)
    ensures var all, listed := Entries(live), Listed(live);
            var last, known := LastWithId(all, id), LastWithId(listed, id);
            && (last.None? ==> known.None?)
            && (last.Some? && Bindable(all[last.value]) ==> known.Some? && listed[known.value] == all[last.value])
            && (known.Some? ==> Bindable(listed[known.value]))
  {
    hide Bindable, LastWithId;
    LastStep(Entries(live), id);
    LastStep(Listed(live), id);
    if live != [] {
      var init, n := live[..|live| - 1], |live| - 1;
      LastBound(init, id);
      EntriesInit(live, n);
      assert Entries(live)[n] == live[n].entry;
      if live[n].row.Some? {
        assert Listed(live)[..|Listed(live)| - 1] == Listed(init);
      } else {
        assert Listed(live) == Listed(init);
      }
    }
  }

  lemma BoundLookup(e: Primitives, live: seq<Line>, id: string)
    requires RowsAsBound(live)
    ensures var all := Entries(live);
            Lookup(FileBytes(all), IndexOf(e, live), id) == ScanId(all, id)
            <==> match LastWithId(all, id)
                 case None => true
                 case Some(i) => Bindable(all[i])
  {
    hide Lookup, IndexOf, FileBytes, Bindable, RowsAsBound;
    LookupRightIff(e, live, id);
    LastBound(live, id);
  }

  lemma BoundPhase(e: Primitives, live: seq<Line>, orderId: string, phase: string)
    requires RowsAsBound(live) && AllPhases(Entries(live)) && IsPhase(phase)
    ensures var all := Entries(live);
            LookupPhase(FileBytes(all), IndexOf(e, live), orderId, phase) == Ok(ScanPhase(all, orderId, phase))
            <==> match LastOf(all, orderId, phase)
                 case None => true
                 case Some(i) => Bindable(all[i])
  {
    hide LookupPhase, IndexOf, FileBytes, RowsAsBound, RecordIdOf, LastWithId, LastOf, Bindable, IsPhase;
    var all, listed := Entries(live), Listed(live);
    LookupPhaseIsScan(e, live, orderId, phase);
    ListedPhases(live);
    LastOfIsLastWithId(all, orderId, phase);
    LastOfIsLastWithId(listed, orderId, phase);
    LastBound(live, RecordIdOf(orderId, phase));
    var last, known := LastOf(all, orderId, phase), LastOf(listed, orderId, phase);
    if last.Some? && known.Some? { SamePayload(all[last.value], listed[known.value]); }
  }

  /** Whether sqlite3 can bind an entry depends on its payload. */
  lemma SamePayload(x: AuditEntry, y: AuditEntry)
    ensures RecordOf(x) == RecordOf(y) ==> (Bindable(x) <==> Bindable(y))
  {
  }

  /** Every event appends an entry of one of the phases. */
  ghost predicate InPhases(events: seq<Event>) {
    forall i :: 0 <= i < |events| && events[i].Appending? ==> IsPhase(events[i].call.entry.phase)
  }

  lemma {:induction false} AfterPhases(c: Config, v: View, events: seq<Event>)
    requires AllPhases(Entries(v.live)) && InPhases(events)
    ensures match After(c, v, events)
            case None => true
            case Some(w) => AllPhases(Entries(w.live))
  {
    hide IsPhase, OpeningRaises, Append;
    if events != [] {
      var init := events[..|events| - 1];
      AfterPhases(c, v, init);
      match (After(c, v, init), events[|events| - 1]) {
        case (Some(w), Appending(call)) => AppendPhases(c, w, call);
        case (Some(w), Reopening) => assert Entries(Reopened(w).live) == Entries(w.live);
        case _ =>
      }
    }
  }

  lemma AppendPhases(c: Config, v: View, call: Call)
    requires AllPhases(Entries(v.live)) && IsPhase(call.entry.phase)
    ensures AllPhases(Entries(Append(c, v, call).live))
  {
    hide IsPhase, ShouldRotate, DiskOf, Bindable;
    var ready := Ready(c, v, call);
    assert Entries(Append(c, v, call).live) == Entries(ready.live) + [call.entry];
    if ready != v {
      assert Entries(ready.live) == [Marker(c, call.stamp, call.now)];
      MarkerPhase();
    }
  }

  lemma MarkerPhase()
    ensures IsPhase(PHASE_ROTATION)
  {
  }

  // ----- the index over whole sessions -----

  /** After every session from an empty log, whatever it appended and however often it was reopened,
      `get_by_id` is right about an id exactly when the file has no entry with it or sqlite3 can bind
      the last one. */
  lemma SessionLookupIff(c: Config, events: seq<Event>, id: string)
    requires After(c, EMPTY, events).Some?
    ensures var v := After(c, EMPTY, events).value;
            var d, all := DiskOf(c, v), Entries(v.live);
            Lookup(d.file, d.index, id) == ScanId(all, id)
            <==> match LastWithId(all, id)
                 case None => true
                 case Some(i) => Bindable(all[i])
  {
    hide Lookup, IndexOf, FileBytes, Bindable;
    AfterBound(c, EMPTY, events);
    BoundLookup(c.e, After(c, EMPTY, events).value.live, id);
  }

  /** The same for each phase of `get_trade_flow`. */
  lemma SessionPhaseIff(c: Config, events: seq<Event>, orderId: string, phase: string)
    requires After(c, EMPTY, events).Some? && InPhases(events) && IsPhase(phase)
    ensures var v := After(c, EMPTY, events).value;
            var d, all := DiskOf(c, v), Entries(v.live);
            LookupPhase(d.file, d.index, orderId, phase) == Ok(ScanPhase(all, orderId, phase))
            <==> match LastOf(all, orderId, phase)
                 case None => true
                 case Some(i) => Bindable(all[i])
  {
    hide LookupPhase, IndexOf, FileBytes, Bindable, IsPhase;
    AfterBound(c, EMPTY, events);
    AfterPhases(c, EMPTY, events);
    BoundPhase(c.e, After(c, EMPTY, events).value.live, orderId, phase);
  }

  /** Opening the log after a session raises exactly when its file has lines and sqlite3 can bind none
      of them. */
  lemma SessionOpensIff(c: Config, events: seq<Event>)
    requires After(c, EMPTY, events).Some?
    ensures var all := Entries(After(c, EMPTY, events).value.live);
            After(c, EMPTY, events + [Reopening]) == None
            <==> all != [] && forall i :: 0 <= i < |all| ==> !Bindable(all[i])
  {
    hide Bindable;
    assert (events + [Reopening])[..|events|] == events;
    AfterBound(c, EMPTY, events);
    var live := After(c, EMPTY, events).value.live;
    NothingListed(live);
    assert forall i :: 0 <= i < |live| ==> Entries(live)[i] == live[i].entry;
    if live != [] && Listed(live) == [] { assert !Bindable(Entries(live)[0]); }
  }

  /** Sessions conserve entries and keep the chain of files, like runs of appends. */
  lemma {:induction false} SessionConserves(c: Config, events: seq<Event>)
    requires After(c, EMPTY, events).Some? && NoMarkers(CallsOf(events))
    ensures var v := After(c, EMPTY, events).value;
            Everything(v) == EntriesOf(CallsOf(events)) && Chained(v)
  {
    hide Append, OpeningRaises, Reopened, Everything, Chained;
    if events == [] {
      NothingYet();
      EmptyChained();
    } else {
      var init := events[..|events| - 1];
      var calls, v := CallsOf(init), After(c, EMPTY, init).value;
      match events[|events| - 1] {
        case Appending(call) =>
          assert CallsOf(events) == calls + [call];
          assert CallsOf(events)[|calls|] == call && forall i :: 0 <= i < |calls| ==> CallsOf(events)[i] == calls[i];
          SessionConserves(c, init);
          EverythingOfAppend(c, v, call);
          AppendChains(c, v, call);
          assert EntriesOf(CallsOf(events)) == EntriesOf(calls) + [call.entry];
        case Reopening =>
          assert CallsOf(events) == calls;
          SessionConserves(c, init);
          ReopenedKeeps(v);
      }
    }
  }

  lemma EmptyChained()
    ensures Chained(EMPTY)
  {
  }

  lemma ReopenedKeeps(v: View)
    requires Chained(v)
    ensures Everything(Reopened(v)) == Everything(v) && Chained(Reopened(v))
  {
    assert Entries(Reopened(v).live) == Entries(v.live);
  }

  // ----- opening -----

  lemma {:induction false} NoRows(e: Primitives, live: seq<Line>)
    ensures IndexOf(e, live) == map[] <==> Listed(live) == []
  {
    hide Indexed;
    if live != [] {
      NoRows(e, live[..|live| - 1]);
      if live[|live| - 1].row.Some? { RowThere(e, live); }
    }
  }

  lemma RowThere(e: Primitives, live: seq<Line>)
    requires live != [] && live[|live| - 1].row.Some?
    ensures live[|live| - 1].entry.RecordId() in IndexOf(e, live)
  {
  }

  /** Opening a log that a run from empty wrote, with its own index, changes nothing exactly when
      sqlite3 could bind every entry of the live file. */
  lemma ReopenedSameIff(c: Config, calls: seq<Call>)
    ensures var v := Run(c, EMPTY, calls);
            !OpeningRaises(v) && Reopened(v) == v <==> AllBindable(Entries(v.live))
  {
    hide Run, Counted, Bindable;
    AddingNothing();
    RunCounted(c, EMPTY, calls);
    var v := Run(c, EMPTY, calls);
    if AllBindable(Entries(v.live)) {
      CountedIsNumbered(v.live);
      NumberedIsNumbering(v.live);
    } else {
      var i :| 0 <= i < |v.live| && !Bindable(Entries(v.live)[i]);
      RowMissing(v.live, i);
      ListedAtMost(v.live, i);
    }
  }

  /** After a first entry that sqlite3 cannot bind, opening the log raises; it stores nothing, so it
      raises every time. */
  lemma UnbindableFirstBlocks(c: Config, bad: Call)
    requires !bad.entry.IsMarker() && !Bindable(bad.entry)
    ensures OpeningRaises(Append(c, EMPTY, bad))
  {
    hide Bindable, LineBytes;
    OnlyLine(c, bad);
    assert Entries(Append(c, EMPTY, bad).live)[0] == bad.entry;
  }
}
