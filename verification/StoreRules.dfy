/** What the store answers, read off the states it is given and the file it leaves: when
    it writes, how old the file can be, what a restart makes of it, and which files it
    will not read. */
module StoreRules {
  import opened Model
  import opened Timers
  import opened Persistence

  // ----------------------------------------------------------- the structure

  /** Alike in everything but the ticking timers and what is not stored. */
  predicate SameStructure(s: LineState, t: LineState) {
    && t.beat == s.beat && t.phase == s.phase && t.fault == s.fault
    && t.occupancy == s.occupancy && t.inQueue == s.inQueue && t.parts.Keys == s.parts.Keys
    && forall pid :: pid in s.parts ==> t.parts[pid].coats == s.parts[pid].coats && t.parts[pid].isWet == s.parts[pid].isWet
  }

  lemma KeyMeans(s: LineState, t: LineState, m: int, n: int)
    ensures KeyOf(s, m) == KeyOf(t, n) <==> SameStructure(s, t) && m == n
  {
    if SameStructure(s, t) {
      assert Marks(s) == Marks(t);
    }
    if Marks(s) == Marks(t) {
      assert Marks(s).Keys == s.parts.Keys && Marks(t).Keys == t.parts.Keys;
      forall pid | pid in s.parts
        ensures pid in t.parts && t.parts[pid].coats == s.parts[pid].coats && t.parts[pid].isWet == s.parts[pid].isWet
      {
        assert Marks(s)[pid] == (s.parts[pid].coats, s.parts[pid].isWet);
        assert pid in Marks(t) && Marks(t)[pid] == (t.parts[pid].coats, t.parts[pid].isWet);
      }
    }
  }

  /** The file shows this structure. */
  predicate FileShows(file: File, s: LineState, declared: int) {
    Read(file).Some? && SameStructure(s, Read(file).value.0) && Read(file).value.1 == declared
  }

  /** After every call the file shows the structure of the state it was called with. */
  lemma FileIsStructural(store: Store, s: LineState, declared: int, now: real)
    requires Remembers(store)
    ensures FileShows(MaybeSaved(store, s, declared, now).file, s, declared)
  {
    var after := MaybeSaved(store, s, declared, now);
    MaybeSavedAgrees(store, s, declared, now);
    KeyMeans(s, Read(after.file).value.0, declared, Read(after.file).value.1);
  }

  /** What a write leaves: the whole state, with its time and what it was like. */
  predicate Wrote(store: Store, after: Store, s: LineState, declared: int, now: real) {
    && after.file == Written(Serialize(s, declared)) && after.lastSave == now && after.minInterval == store.minInterval
    && Remembers(after) && after.lastStructural.Some?
  }

  /** A call writes exactly when nothing was written yet, the file no longer shows the
      structure, or the interval is over; otherwise it touches nothing. */
  lemma SavesExactly(store: Store, s: LineState, declared: int, now: real)
    requires Remembers(store)
    ensures
      var after := MaybeSaved(store, s, declared, now);
      if store.lastStructural.None? || !FileShows(store.file, s, declared) || now - store.lastSave >= store.minInterval
      then Wrote(store, after, s, declared, now)
      else after == store
  {
    KeyRoundTrip(s, declared);
    if store.lastStructural.Some? {
      KeyMeans(s, Read(store.file).value.0, declared, Read(store.file).value.1);
    }
  }

  // ----------------------------------------------------------- a run of calls

  datatype Call = Call(state: LineState, declared: int, now: real)

  function StoreAfter(store: Store, calls: seq<Call>): Store
    decreases |calls|
  {
    if calls == [] then store
    else
      var c := calls[|calls| - 1];
      MaybeSaved(StoreAfter(store, calls[..|calls| - 1]), c.state, c.declared, c.now)
  }

  /** The file holds the whole state of the j-th call, and what has come since differs
      from it in timers only, and for less than the interval. */
  predicate HoldsCall(store: Store, calls: seq<Call>, j: nat)
    requires j < |calls|
  {
    && store.file == Written(Serialize(calls[j].state, calls[j].declared)) && store.lastSave == calls[j].now
    && forall k :: j < k < |calls| ==>
         calls[k].now - calls[j].now < store.minInterval && FileShows(store.file, calls[k].state, calls[k].declared)
  }

  /** A call that found nothing to write leaves the file with the call it holds. */
  lemma StillHolds(store: Store, calls: seq<Call>, more: seq<Call>, j: nat)
    requires j < |calls| && |more| == |calls| + 1 && more[..|calls|] == calls && HoldsCall(store, calls, j)
    requires
      var c := more[|calls|];
      c.now - store.lastSave < store.minInterval && FileShows(store.file, c.state, c.declared)
    ensures HoldsCall(store, more, j)
  {
    forall k | 0 <= k < |calls| ensures more[k] == calls[k] {
      assert more[..|calls|][k] == more[k];
    }
  }

  lemma JustHeld(store: Store, before: Store, calls: seq<Call>)
    requires calls != []
    requires
      var c := calls[|calls| - 1];
      Wrote(before, store, c.state, c.declared, c.now)
    ensures HoldsCall(store, calls, |calls| - 1)
  {
  }

  /** The file is never older than the interval: after any calls of a fresh store it holds
      the whole state of one of them, and every call since came within the interval and
      found the same structure. So a crash costs less than an interval of flash. */
  lemma {:induction false} FileIsRecent(store: Store, calls: seq<Call>) returns (j: nat)
    requires store.lastStructural.None? && calls != []
    ensures j < |calls| && HoldsCall(StoreAfter(store, calls), calls, j)
    ensures Remembers(StoreAfter(store, calls)) && StoreAfter(store, calls).minInterval == store.minInterval
    decreases |calls|
  {
    var init, c := calls[..|calls| - 1], calls[|calls| - 1];
    var before := StoreAfter(store, init);
    j := |calls| - 1;
    if init != [] {
      j := FileIsRecent(store, init);
    }
    SavesExactly(before, c.state, c.declared, c.now);
    if init == [] || before.lastStructural.None? || !FileShows(before.file, c.state, c.declared)
       || c.now - before.lastSave >= before.minInterval
    {
      JustHeld(StoreAfter(store, calls), before, calls);
      j := |calls| - 1;
    } else {
      StillHolds(before, init, calls, j);
    }
  }

  // ---------------------------------------------------------------- a restart

  /** A restart trusts nothing it finds on the line: it stands faulted until somebody
      confirms it, with the fault it had, or that of having restarted in the phase it
      was in; no work is pending and none in flight, and the rest is as it was stored.
      An empty line starts clean. */
  lemma RestartAnswers(s: LineState)
    ensures
      var t := AsRestored(s);
      var empty := s.parts == map[] && s.occupancy == map[] && s.inQueue == [];
      && t.pending == [] && t.inFlight == []
      && t == s.(pending := [], inFlight := [], phase := t.phase, fault := t.fault, faultPhase := t.faultPhase)
      && (if empty then t.phase == RobotWork && t.fault == None && t.faultPhase == None
          else
            && t.phase == Faulted
            && t.fault == (if s.fault.Some? then s.fault else Some(Restarted))
            && t.faultPhase == (if s.fault.Some? then s.faultPhase else Some(s.phase)))
  {
  }

  // -------------------------------------------------------- unreadable files

  const Beats: set<string> := {"P1", "P2", "P3", "P4"}

  const Phases: set<string> :=
    {"robot_work", "await_guards", "shutter_open", "moving", "shutter_close", "set_fans", "faulted"}

  const Shutters: set<string> := {"open", "closed", "moving", "unknown"}

  /** The one version, and only names the program knows. */
  predicate WellNamed(d: Snapshot) {
    && d.version == 1 && d.beat in Beats && d.phase in Phases && (d.faultPhase.Some? ==> d.faultPhase.value in Phases)
    && d.f1Fan in {"on", "off"} && d.f2Fan in {"on", "off"} && d.shutter in Shutters
    && (forall name :: name in d.occupancy ==> name in {"IN", "F1", "O", "F2", "OUT"})
    && (forall pid :: pid in d.parts ==> d.parts[pid].product in {"cube", "browser"} && d.parts[pid].role in {"lead", "trail"})
  }

  lemma PhaseKnown(name: string)
    ensures PhaseNamed(name).Some? <==> name in Phases
  {
  }

  lemma RecordKnown(r: PartRecord)
    ensures ReadableRecord(r) <==> r.product in {"cube", "browser"} && r.role in {"lead", "trail"}
  {
  }

  /** A file is read exactly when it is well named. */
  lemma ReadsExactly(d: Snapshot)
    ensures Read(Written(d)).Some? <==> WellNamed(d)
    ensures Read(Absent).None? && Read(Garbled).None?
  {
    PhaseKnown(d.phase);
    if d.faultPhase.Some? { PhaseKnown(d.faultPhase.value); }
    forall pid | pid in d.parts
      ensures ReadableRecord(d.parts[pid]) <==> d.parts[pid].product in {"cube", "browser"} && d.parts[pid].role in {"lead", "trail"}
    {
      RecordKnown(d.parts[pid]);
    }
    NamesKnown(d);
  }

  lemma NamesKnown(d: Snapshot)
    ensures BeatNamed(d.beat).Some? <==> d.beat in Beats
    ensures FanNamed(d.f1Fan).Some? <==> d.f1Fan in {"on", "off"}
    ensures FanNamed(d.f2Fan).Some? <==> d.f2Fan in {"on", "off"}
    ensures ShutterNamed(d.shutter).Some? <==> d.shutter in Shutters
    ensures d.occupancy.Keys <= StationNames <==> forall name :: name in d.occupancy ==> name in {"IN", "F1", "O", "F2", "OUT"}
  {
  }
}
