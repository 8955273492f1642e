/** Exactly when a sweep removes what it judged. A sweep collects expired clips and removes each in three steps:
    index, accounts, file. What it takes out of the index is the clip it collected as long as no publication of
    the room was indexed in between; what it deletes from the directory is that clip's file as long as no newer
    clip of the room was renamed into place, which a failed directory sync can leave behind long before. */
module MailboxRace {
  import opened Prelude
  import opened Mailbox
  import opened MailboxInvariant

  // ---- What is written is newer than what is indexed ----

  /** A clip waiting to be written, or being written, is strictly newer than the room's indexed one. */
  predicate AheadOfIndex(s: State)
  {
    && (forall r :: r in s.dirty && r in s.index ==> s.index[r].stamp < s.dirty[r].stamp)
    && (Writing(s.worker) && s.worker.room in s.index ==> s.index[s.worker.room].stamp < s.worker.snapshot.stamp)
  }

  lemma {:induction false} ProducerKeepsAhead(o: Options, s: State, e: Event)
    requires AheadOfIndex(s) && FileInv(s) && Enabled(o, s, e) && IsProducerEvent(e)
    ensures AheadOfIndex(ProducerStep(s, e))
  {
    assert forall r :: r in s.index ==> s.index[r].stamp < |s.log|;
  }

  lemma {:induction false} GiveBackKeepsAhead(s: State)
    requires AheadOfIndex(s) && Writing(s.worker)
    ensures AheadOfIndex(GiveBack(s))
  {
  }

  lemma {:induction false} IndexKeepsAhead(o: Options, s: State)
    requires AheadOfIndex(s) && FileInv(s) && Enabled(o, s, Index)
    ensures AheadOfIndex(Advance(o, s, Index))
  {
    assert WorkerAhead(s.worker, s.dirty, s.high, s.temps, s.log);
  }

  lemma {:induction false} AdvanceKeepsAhead(o: Options, s: State, e: Event)
    requires AheadOfIndex(s) && Enabled(o, s, e) && IsWorkerEvent(e) && !Fails(o, s, e) && !e.Index?
    ensures AheadOfIndex(Advance(o, s, e))
  {
  }

  lemma {:induction false} SweepKeepsAhead(o: Options, s: State, e: Event)
    requires AheadOfIndex(s) && Enabled(o, s, e)
    requires !IsProducerEvent(e) && !IsWorkerEvent(e) && !IsControlEvent(e)
    ensures AheadOfIndex(SweepStep(s, e))
  {
    IndexShrinks(s, SweepStep(s, e), e);
  }

  lemma {:induction false} ControlKeepsAhead(o: Options, s: State, e: Event)
    requires AheadOfIndex(s) && DownInv(s) && Enabled(o, s, e) && IsControlEvent(e)
    ensures AheadOfIndex(ControlStep(o, s, e))
  {
  }

  lemma {:induction false} StepKeepsAhead(o: Options, s: State, e: Event)
    requires AheadOfIndex(s) && Inv(o, s) && Enabled(o, s, e)
    ensures AheadOfIndex(Step(o, s, e))
  {
    if IsProducerEvent(e) {
      ProducerKeepsAhead(o, s, e);
    } else if IsWorkerEvent(e) {
      if Fails(o, s, e) {
        GiveBackKeepsAhead(s);
      } else if e.Index? {
        IndexKeepsAhead(o, s);
      } else {
        AdvanceKeepsAhead(o, s, e);
      }
    } else if IsControlEvent(e) {
      ControlKeepsAhead(o, s, e);
    } else {
      SweepKeepsAhead(o, s, e);
    }
  }

  ghost predicate Reached(o: Options, s: State)
  {
    Inv(o, s) && AheadOfIndex(s)
  }

  lemma {:induction false} StepReached(o: Options, s: State, e: Event)
    requires Reached(o, s) && Enabled(o, s, e)
    ensures Reached(o, Step(o, s, e))
  {
    StepKeepsInv(o, s, e);
    StepKeepsAhead(o, s, e);
  }

  lemma {:induction false} RunReached(o: Options, s: State, events: seq<Event>)
    requires Reached(o, s) && Legal(o, s, events)
    ensures Reached(o, Run(o, s, events))
    decreases |events|
  {
    if events != [] {
      StepReached(o, s, events[0]);
      RunReached(o, Step(o, s, events[0]), events[1..]);
    }
  }

  /** In every run, for a room whose newest clip is neither expired nor swept: an actor that asks for the room's clip
      is handed the newest one exactly when that one is not in the worker's hands; else it is handed an older one or
      none. */
  lemma {:induction false} LoadPendingExact(o: Options, s: State, events: seq<Event>, r: Room, now: int)
    requires Init(s) && Legal(o, s, events)
    requires var s' := Run(o, s, events);
             r in s'.latest && s'.latest[r] !in s'.swept && now - s'.latest[r].ts <= o.ttl
    ensures var s' := Run(o, s, events);
            var x, found := s'.latest[r], LoadPending(o, s', r, now);
            && (found == Some(x) <==> !(Held(s'.worker, r) && s'.worker.snapshot == x))
            && (found.Some? && found.value != x ==> found.value.stamp < x.stamp)
  {
    InitEstablishesInv(o, s);
    RunReached(o, s, events);
    var s' := Run(o, s, events);
    assert LatestAt(r, s'.latest[r], s'.dirty, s'.worker, s'.index, s'.swept);
    assert WorkerAhead(s'.worker, s'.dirty, s'.high, s'.temps, s'.log);
  }

  // ---- The index ----

  /** This step indexes a publication of the room. */
  predicate Indexes(s: State, e: Event, r: Room)
  {
    e.Index? && s.worker.Accounted? && s.worker.room == r
  }

  /** Some publication of the room is indexed during the run. */
  ghost predicate IndexedIn(o: Options, s: State, events: seq<Event>, r: Room)
    requires Legal(o, s, events)
    decreases |events|
  {
    events != [] && (Indexes(s, events[0], r) || IndexedIn(o, Step(o, s, events[0]), events[1..], r))
  }

  /** The run is part of one sweep. */
  predicate SameSweep(events: seq<Event>)
  {
    forall e :: e in events ==> !e.StartSweep? && !e.Crash?
  }

  /** The sweep still has this target before it. */
  predicate Awaits(sw: Sweeper, t: Target)
  {
    t in Targets(sw) && Distinct(Targets(sw))
  }

  /** The sweep is past collecting and has no target for the room. */
  predicate DoneWith(sw: Sweeper, r: Room)
  {
    !sw.Collecting? && forall u :: u in Targets(sw) ==> u.room != r
  }

  /** A target stays before the sweep until its room is taken out of the index, and then does not come back. */
  lemma {:induction false} SweeperMoves(sw: Sweeper, index: map<Room, Snapshot>, e: Event, t: Target)
    requires (sw.Collecting? && (e.EndCollect? || (e.Collect? && e.room in index)))
             || (sw.Sweeping? && e.SweepIndex?) || (sw.Unindexed? && e.SweepSize?) || (sw.Unsized? && e.SweepFile?)
    requires Awaits(sw, t) && (e.Collect? ==> forall u :: u in sw.todo ==> u.room != e.room)
    ensures var sw' := SweeperNext(sw, index, e);
            if e.SweepIndex? && sw.todo[0] == t then DoneWith(sw', t.room)
            else Awaits(sw', t) && !(e.SweepIndex? && sw.todo[0].room == t.room)
  {
    if e.SweepIndex? {
      assert sw.todo == [sw.todo[0]] + sw.todo[1..];
      forall u | u in sw.todo[1..]
        ensures u.room != sw.todo[0].room
      {
        var i :| 0 <= i < |sw.todo[1..]| && sw.todo[1..][i] == u;
        assert sw.todo[i + 1] == u;
      }
    }
  }

  lemma {:induction false} SweeperAfter(o: Options, s: State, e: Event)
    requires Enabled(o, s, e) && !e.Crash? && !IsSweepEvent(e)
    ensures Step(o, s, e).sweeper == s.sweeper
  {
  }

  lemma {:induction false} DoneStep(o: Options, s: State, e: Event, r: Room)
    requires DoneWith(s.sweeper, r) && Enabled(o, s, e) && !e.StartSweep? && !e.Crash?
    ensures DoneWith(Step(o, s, e).sweeper, r)
  {
    if IsSweepEvent(e) {
      DoneSweeper(s.sweeper, s.index, e, r);
    } else {
      SweeperAfter(o, s, e);
    }
  }

  lemma {:induction false} DoneSweeper(sw: Sweeper, index: map<Room, Snapshot>, e: Event, r: Room)
    requires (sw.Sweeping? && e.SweepIndex?) || (sw.Unindexed? && e.SweepSize?) || (sw.Unsized? && e.SweepFile?)
    requires DoneWith(sw, r)
    ensures DoneWith(SweeperNext(sw, index, e), r)
  {
    if e.SweepIndex? && sw.todo != [] {
      assert sw.todo == [sw.todo[0]] + sw.todo[1..];
    }
  }

  lemma {:induction false} DoneStays(o: Options, s: State, events: seq<Event>, r: Room)
    requires Legal(o, s, events) && SameSweep(events) && DoneWith(s.sweeper, r)
    ensures DoneWith(Run(o, s, events).sweeper, r)
    decreases |events|
  {
    if events != [] {
      assert events[0] in events;
      DoneStep(o, s, events[0], r);
      DoneStays(o, Step(o, s, events[0]), events[1..], r);
    }
  }

  lemma {:induction false} WorkerIndex(o: Options, s: State, e: Event)
    requires Enabled(o, s, e) && IsWorkerEvent(e)
    ensures WorkerStep(o, s, e).index == if e.Index? then s.index[s.worker.room := s.worker.snapshot] else s.index
  {
  }

  lemma {:induction false} WorkerEntry(o: Options, s: State, e: Event, r: Room)
    requires Enabled(o, s, e) && IsWorkerEvent(e) && r in s.index
    ensures var index := WorkerStep(o, s, e).index;
            r in index && index[r] == if Indexes(s, e, r) then s.worker.snapshot else s.index[r]
  {
    WorkerIndex(o, s, e);
  }

  lemma {:induction false} SweepEntry(o: Options, s: State, e: Event, r: Room)
    requires Enabled(o, s, e) && IsSweepEvent(e) && r in s.index
    requires !(e.SweepIndex? && s.sweeper.todo != [] && s.sweeper.todo[0].room == r)
    ensures r in SweepStep(s, e).index && SweepStep(s, e).index[r] == s.index[r]
  {
  }

  /** Apart from publications of the room and its own removal nothing touches a room's index entry. */
  lemma {:induction false} EntryAfter(o: Options, s: State, e: Event, r: Room)
    requires Enabled(o, s, e) && !e.Crash? && !e.Open? && r in s.index
    requires !(e.SweepIndex? && s.sweeper.todo != [] && s.sweeper.todo[0].room == r)
    ensures r in Step(o, s, e).index
    ensures Step(o, s, e).index[r] == if Indexes(s, e, r) then s.worker.snapshot else s.index[r]
  {
    if IsWorkerEvent(e) {
      WorkerEntry(o, s, e, r);
    } else if IsSweepEvent(e) {
      SweepEntry(o, s, e, r);
    }
  }

  lemma {:induction false} AwaitsAfter(o: Options, s: State, e: Event, t: Target)
    requires Enabled(o, s, e) && !e.StartSweep? && !e.Crash? && Awaits(s.sweeper, t)
    ensures if e.SweepIndex? && s.sweeper.todo[0] == t then DoneWith(Step(o, s, e).sweeper, t.room)
            else Awaits(Step(o, s, e).sweeper, t) && !(e.SweepIndex? && s.sweeper.todo[0].room == t.room)
  {
    if IsSweepEvent(e) {
      SweeperMoves(s.sweeper, s.index, e, t);
    } else {
      SweeperAfter(o, s, e);
    }
  }

  /** While the target is before the sweep only a publication of its room changes the room's index entry, and to a
      newer clip. */
  lemma {:induction false} AwaitedStep(o: Options, s: State, e: Event, t: Target)
    requires Reached(o, s) && Enabled(o, s, e) && !e.StartSweep? && !e.Crash?
    requires Awaits(s.sweeper, t) && t.room in s.index
    ensures var s' := Step(o, s, e);
            || DoneWith(s'.sweeper, t.room)
            || (Awaits(s'.sweeper, t) && t.room in s'.index
                && (if Indexes(s, e, t.room) then s.index[t.room].stamp < s'.index[t.room].stamp
                    else s'.index[t.room] == s.index[t.room]))
  {
    OpenWhileSweeping(s);
    AwaitsAfter(o, s, e, t);
    if !(e.SweepIndex? && s.sweeper.todo[0] == t) {
      EntryAfter(o, s, e, t.room);
    }
  }

  lemma {:induction false} OpenWhileSweeping(s: State)
    requires DownInv(s) && !s.sweeper.Resting?
    ensures s.open
  {
  }

  lemma {:induction false} NewerStays(o: Options, s: State, events: seq<Event>, t: Target)
    requires Reached(o, s) && Legal(o, s, events) && SameSweep(events)
    requires Awaits(s.sweeper, t) && t.room in s.index && t.snapshot.stamp < s.index[t.room].stamp
    ensures var s' := Run(o, s, events);
            DoneWith(s'.sweeper, t.room) || (t.room in s'.index && t.snapshot.stamp < s'.index[t.room].stamp)
    decreases |events|
  {
    if events != [] {
      var e, s' := events[0], Step(o, s, events[0]);
      assert e in events;
      AwaitedStep(o, s, e, t);
      StepReached(o, s, e);
      if DoneWith(s'.sweeper, t.room) {
        DoneStays(o, s', events[1..], t.room);
      } else {
        NewerStays(o, s', events[1..], t);
      }
    }
  }

  lemma {:induction false} SinceCollected(o: Options, s: State, events: seq<Event>, t: Target)
    requires Reached(o, s) && Legal(o, s, events) && SameSweep(events)
    requires Awaits(s.sweeper, t) && t.room in s.index && s.index[t.room] == t.snapshot
    ensures var s' := Run(o, s, events);
            || DoneWith(s'.sweeper, t.room)
            || (t.room in s'.index && (s'.index[t.room] == t.snapshot <==> !IndexedIn(o, s, events, t.room)))
    decreases |events|
  {
    if events != [] {
      var e, s' := events[0], Step(o, s, events[0]);
      assert e in events;
      AwaitedStep(o, s, e, t);
      StepReached(o, s, e);
      if DoneWith(s'.sweeper, t.room) {
        DoneStays(o, s', events[1..], t.room);
      } else if Indexes(s, e, t.room) {
        NewerStays(o, s', events[1..], t);
      } else {
        SinceCollected(o, s', events[1..], t);
      }
    }
  }

  lemma {:induction false} StepDistinct(o: Options, s: State, e: Event)
    requires Enabled(o, s, e) && Distinct(Targets(s.sweeper))
    ensures Distinct(Targets(Step(o, s, e).sweeper))
  {
    if !IsSweepEvent(e) && !e.Crash? {
      SweeperAfter(o, s, e);
    }
  }

  lemma {:induction false} RunDistinct(o: Options, s: State, events: seq<Event>)
    requires Legal(o, s, events) && Distinct(Targets(s.sweeper))
    ensures Distinct(Targets(Run(o, s, events).sweeper))
    decreases |events|
  {
    if events != [] {
      StepDistinct(o, s, events[0]);
      RunDistinct(o, Step(o, s, events[0]), events[1..]);
    }
  }

  lemma {:induction false} CollectedAwaits(o: Options, s: State, r: Room)
    requires Distinct(Targets(s.sweeper)) && Enabled(o, s, Collect(r))
    ensures Awaits(Step(o, s, Collect(r)).sweeper, Target(r, s.index[r])) && Step(o, s, Collect(r)).index == s.index
  {
    var t := Target(r, s.index[r]);
    assert SweepStep(s, Collect(r)).sweeper == Collecting(s.sweeper.todo + [t], s.sweeper.now);
  }

  lemma {:induction false} NotDone(sw: Sweeper, r: Room)
    requires sw.Sweeping? && sw.todo != [] && sw.todo[0].room == r
    ensures !DoneWith(sw, r)
  {
    assert sw.todo[0] in Targets(sw);
  }

  /** In every run: a sweep collects a room's expired clip, and later in the same sweep comes to take the room out of
      the index. It takes the clip it collected exactly when no publication of the room was indexed in between. */
  lemma {:induction false} IndexRemovalExact(o: Options, s: State, before: seq<Event>, r: Room, after: seq<Event>)
    requires Init(s) && Legal(o, s, before) && Enabled(o, Run(o, s, before), Collect(r))
    requires Legal(o, Step(o, Run(o, s, before), Collect(r)), after) && SameSweep(after)
    requires var sw := Run(o, Step(o, Run(o, s, before), Collect(r)), after).sweeper;
             sw.Sweeping? && sw.todo != [] && sw.todo[0].room == r
    ensures var s1 := Step(o, Run(o, s, before), Collect(r));
            var s' := Run(o, s1, after);
            r in s'.index && (s'.index[r] == Run(o, s, before).index[r] <==> !IndexedIn(o, s1, after, r))
  {
    InitEstablishesInv(o, s);
    RunReached(o, s, before);
    RunDistinct(o, s, before);
    var mid := Run(o, s, before);
    StepReached(o, mid, Collect(r));
    CollectedAwaits(o, mid, r);
    SinceCollected(o, Step(o, mid, Collect(r)), after, Target(r, mid.index[r]));
    NotDone(Run(o, Step(o, mid, Collect(r)), after).sweeper, r);
  }

  // ---- The file ----

  /** This step renames a clip of the room into place. */
  ghost predicate Renames(o: Options, s: State, e: Event, r: Room)
    requires Enabled(o, s, e)
  {
    e.Rename? && !Fails(o, s, e) && s.worker.room == r
  }

  /** A clip of the room newer than `stamp` is renamed into place during the run. */
  ghost predicate NewerRenamed(o: Options, s: State, events: seq<Event>, r: Room, stamp: nat)
    requires Legal(o, s, events)
    decreases |events|
  {
    events != []
    && ((Renames(o, s, events[0], r) && s.worker.snapshot.stamp > stamp)
        || NewerRenamed(o, Step(o, s, events[0]), events[1..], r, stamp))
  }

  predicate Above(high: map<Room, nat>, r: Room, stamp: nat)
  {
    r in high && high[r] > stamp
  }

  lemma {:induction false} HighAfter(o: Options, s: State, e: Event, r: Room, stamp: nat)
    requires FileInv(s) && Enabled(o, s, e)
    ensures Above(Step(o, s, e).high, r, stamp)
            <==> Above(s.high, r, stamp) || (Renames(o, s, e, r) && s.worker.snapshot.stamp > stamp)
  {
    assert WorkerAhead(s.worker, s.dirty, s.high, s.temps, s.log);
  }

  lemma {:induction false} HighAfterRun(o: Options, s: State, events: seq<Event>, r: Room, stamp: nat)
    requires Inv(o, s) && Legal(o, s, events)
    ensures Above(Run(o, s, events).high, r, stamp) <==> Above(s.high, r, stamp) || NewerRenamed(o, s, events, r, stamp)
    decreases |events|
  {
    if events != [] {
      HighAfter(o, s, events[0], r, stamp);
      StepKeepsInv(o, s, events[0]);
      HighAfterRun(o, Step(o, s, events[0]), events[1..], r, stamp);
    }
  }

  lemma {:induction false} FileIsNewest(o: Options, s: State, t: Target)
    requires Inv(o, s) && t in Judged(s.sweeper) && t.room in s.files
    ensures s.files[t.room] == Complete(t.snapshot) <==> !Above(s.high, t.room, t.snapshot.stamp)
    ensures s.sweeper.now - t.snapshot.ts > o.ttl
  {
    assert TargetOk(t, s.sweeper.now, o.ttl, s.index, s.high, s.log);
  }

  /** In every run: a sweep that comes to delete a room's file deletes the file of the expired clip it collected
      exactly when no newer clip of the room was ever renamed into place. */
  lemma {:induction false} FileRemovalExact(o: Options, s: State, events: seq<Event>)
    requires Init(s) && Legal(o, s, events) && Enabled(o, Run(o, s, events), SweepFile(true))
    requires Run(o, s, events).sweeper.target.room in Run(o, s, events).files
    ensures var s' := Run(o, s, events);
            var t := s'.sweeper.target;
            && s'.sweeper.now - t.snapshot.ts > o.ttl
            && (s'.files[t.room] == Complete(t.snapshot) <==> !NewerRenamed(o, s, events, t.room, t.snapshot.stamp))
  {
    InitEstablishesInv(o, s);
    RunKeepsInv(o, s, events);
    var s' := Run(o, s, events);
    HighAfterRun(o, s, events, s'.sweeper.target.room, s'.sweeper.target.snapshot.stamp);
    FileIsNewest(o, s', s'.sweeper.target);
  }
}
