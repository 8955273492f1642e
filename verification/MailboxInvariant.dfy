/** What every interleaving of producers, worker, sweeper, crashes and restarts keeps. */
module MailboxInvariant {
  import opened Prelude
  import opened Mailbox

  // ---- No lost wakeup ----

  type Producers = map<nat, Producer>

  ghost predicate Signalling(producers: Producers, r: Room)
  {
    exists p :: p in producers && producers[p] == MustSend(r)
  }

  ghost predicate Calling(producers: Producers, r: Room)
  {
    exists p :: p in producers && producers[p].room == r
  }

  /** A queued room's signal is in the channel, about to be sent, or just taken. */
  ghost predicate QueuedJustified(queued: set<Room>, channel: seq<Room>, worker: Worker, producers: Producers)
  {
    forall r {:trigger r in queued} :: r in queued ==>
      r in channel || Signalling(producers, r) || (worker.Took? && worker.room == r)
  }

  /** A dirty room has a signal, is to be retried, is about to be looked at, or its producer is about
      to signal. */
  ghost predicate DirtyJustified(dirty: set<Room>, channel: seq<Room>, retry: set<Room>, worker: Worker,
                                 producers: Producers)
  {
    forall r {:trigger r in dirty} :: r in dirty ==>
      r in channel || r in retry || WillCheck(worker, r) || Calling(producers, r)
  }

  ghost predicate WakeInv(s: State)
  {
    && QueuedJustified(s.queued, s.channel, s.worker, s.producers)
    && DirtyJustified(s.dirty.Keys, s.channel, s.retry, s.worker, s.producers)
  }

  lemma {:induction false} CallingUpdate(producers: Producers, p: nat, x: Producer, r: Room)
    requires p in producers ==> producers[p].room == x.room
    ensures Calling(producers, r) || r == x.room ==> Calling(producers[p := x], r)
    ensures Signalling(producers, r) && (p in producers ==> producers[p].Inserted?) ==> Signalling(producers[p := x], r)
    ensures x == MustSend(r) ==> Signalling(producers[p := x], r)
  {
    var producers' := producers[p := x];
    assert producers'[p].room == x.room;
    if k :| k in producers && producers[k].room == r {
      assert k in producers' && producers'[k].room == r;
    }
    if k :| k in producers && producers[k] == MustSend(r) {
      assert k in producers';
    }
  }

  lemma {:induction false} CallingRemove(producers: Producers, p: nat, r: Room)
    requires p in producers
    ensures Calling(producers, r) && producers[p].room != r ==> Calling(producers - {p}, r)
    ensures Signalling(producers, r) && producers[p] != MustSend(r) ==> Signalling(producers - {p}, r)
    ensures Signalling(producers - {p}, r) ==> Calling(producers - {p}, r)
  {
    var rest := producers - {p};
    if k :| k in producers && producers[k].room == r && k != p {
      assert k in rest && rest[k].room == r;
    }
    if k :| k in producers && producers[k] == MustSend(r) && k != p {
      assert k in rest && rest[k] == MustSend(r);
    }
  }

  lemma {:induction false} AcceptKeepsWake(s: State, p: nat, r: Room, snapshot: Snapshot)
    requires WakeInv(s) && p !in s.producers
    ensures WakeInv(ProducerStep(s, Accept(p, r, snapshot)))
  {
    var s' := ProducerStep(s, Accept(p, r, snapshot));
    forall q ensures (Calling(s.producers, q) || q == r ==> Calling(s'.producers, q))
                     && (Signalling(s.producers, q) ==> Signalling(s'.producers, q))
    {
      CallingUpdate(s.producers, p, Inserted(r), q);
    }
  }

  lemma {:induction false} EnqueueAgainKeepsWake(queued: set<Room>, dirty: set<Room>, channel: seq<Room>,
                                                 retry: set<Room>, worker: Worker,
                              producers: Producers, p: nat)
    requires QueuedJustified(queued, channel, worker, producers)
    requires DirtyJustified(dirty, channel, retry, worker, producers)
    requires p in producers && producers[p].Inserted? && producers[p].room in queued
    ensures QueuedJustified(queued, channel, worker, producers - {p})
    ensures DirtyJustified(dirty, channel, retry, worker, producers - {p})
  {
    var room := producers[p].room;
    forall r | r in queued
      ensures r in channel || Signalling(producers - {p}, r) || (worker.Took? && worker.room == r)
    {
      CallingRemove(producers, p, r);
    }
    forall r | r in dirty
      ensures r in channel || r in retry || WillCheck(worker, r) || Calling(producers - {p}, r)
    {
      CallingRemove(producers, p, r);
      if r == room {
        assert r in queued;
      }
    }
  }

  lemma {:induction false} EnqueueFirstKeepsWake(queued: set<Room>, dirty: set<Room>, channel: seq<Room>,
                                                 retry: set<Room>, worker: Worker,
                              producers: Producers, p: nat)
    requires QueuedJustified(queued, channel, worker, producers)
    requires DirtyJustified(dirty, channel, retry, worker, producers)
    requires p in producers && producers[p].Inserted?
    ensures var room := producers[p].room;
            && QueuedJustified(queued + {room}, channel, worker, producers[p := MustSend(room)])
            && DirtyJustified(dirty, channel, retry, worker, producers[p := MustSend(room)])
  {
    var room := producers[p].room;
    var producers' := producers[p := MustSend(room)];
    forall r
      ensures Calling(producers, r) ==> Calling(producers', r)
      ensures Signalling(producers, r) || r == room ==> Signalling(producers', r)
    {
      CallingUpdate(producers, p, MustSend(room), r);
    }
  }

  lemma {:induction false} EnqueueAgain(s: State, p: nat)
    requires WakeInv(s) && p in s.producers && s.producers[p].Inserted? && s.producers[p].room in s.queued
    ensures WakeInv(ProducerStep(s, Enqueue(p)))
  {
    EnqueueAgainKeepsWake(s.queued, s.dirty.Keys, s.channel, s.retry, s.worker, s.producers, p);
  }

  lemma {:induction false} EnqueueFirst(s: State, p: nat)
    requires WakeInv(s) && p in s.producers && s.producers[p].Inserted? && s.producers[p].room !in s.queued
    ensures WakeInv(ProducerStep(s, Enqueue(p)))
  {
    EnqueueFirstKeepsWake(s.queued, s.dirty.Keys, s.channel, s.retry, s.worker, s.producers, p);
  }

  lemma {:induction false} EnqueueKeepsWake(s: State, p: nat)
    requires WakeInv(s) && p in s.producers && s.producers[p].Inserted?
    ensures WakeInv(ProducerStep(s, Enqueue(p)))
  {
    if s.producers[p].room in s.queued {
      EnqueueAgain(s, p);
    } else {
      EnqueueFirst(s, p);
    }
  }

  lemma {:induction false} SignalKeepsWake(s: State, p: nat)
    requires WakeInv(s) && p in s.producers && s.producers[p].MustSend?
    ensures WakeInv(ProducerStep(s, Signal(p)))
  {
    var s' := ProducerStep(s, Signal(p));
    var room := s.producers[p].room;
    assert room in s'.channel && forall q :: q in s.channel ==> q in s'.channel;
    forall q | q != room
      ensures Signalling(s.producers, q) ==> Signalling(s'.producers, q)
      ensures Calling(s.producers, q) ==> Calling(s'.producers, q)
    {
      CallingRemove(s.producers, p, q);
    }
  }

  lemma {:induction false} GiveBackKeepsWake(s: State)
    requires WakeInv(s) && !s.worker.Idle? && !s.worker.Took? && !s.worker.Unqueued?
    ensures WakeInv(GiveBack(s))
  {
  }

  lemma {:induction false} UnqueueKeepsWake(o: Options, s: State)
    requires WakeInv(s) && Enabled(o, s, Unqueue)
    ensures WakeInv(Advance(o, s, Unqueue))
  {
  }

  lemma {:induction false} AdvanceKeepsWake(o: Options, s: State, e: Event)
    requires WakeInv(s) && Enabled(o, s, e) && IsWorkerEvent(e) && !Fails(o, s, e) && !e.Unqueue?
    ensures WakeInv(Advance(o, s, e))
  {
  }

  lemma {:induction false} WorkerKeepsWake(o: Options, s: State, e: Event)
    requires WakeInv(s) && Enabled(o, s, e) && IsWorkerEvent(e)
    ensures WakeInv(WorkerStep(o, s, e))
  {
    if Fails(o, s, e) {
      GiveBackKeepsWake(s);
    } else if e.Unqueue? {
      UnqueueKeepsWake(o, s);
    } else {
      AdvanceKeepsWake(o, s, e);
    }
  }

  lemma {:induction false} ReceiveKeepsWake(o: Options, s: State)
    requires WakeInv(s) && Enabled(o, s, Receive)
    ensures WakeInv(ControlStep(o, s, Receive))
  {
  }

  lemma {:induction false} ControlKeepsWake(o: Options, s: State, e: Event)
    requires WakeInv(s) && Enabled(o, s, e) && IsControlEvent(e) && !e.Receive?
    ensures WakeInv(ControlStep(o, s, e))
  {
  }

  lemma {:induction false} SweepKeepsWake(o: Options, s: State, e: Event)
    requires WakeInv(s) && Enabled(o, s, e)
    requires !IsProducerEvent(e) && !IsWorkerEvent(e) && !IsControlEvent(e)
    ensures WakeInv(SweepStep(s, e))
  {
  }

  lemma {:induction false} StepKeepsWake(o: Options, s: State, e: Event)
    requires WakeInv(s) && Enabled(o, s, e)
    ensures WakeInv(Step(o, s, e))
  {
    if e.Accept? {
      AcceptKeepsWake(s, e.p, e.room, e.snapshot);
    } else if e.Enqueue? {
      EnqueueKeepsWake(s, e.p);
    } else if e.Signal? {
      SignalKeepsWake(s, e.p);
    } else if IsWorkerEvent(e) {
      WorkerKeepsWake(o, s, e);
    } else if e.Receive? {
      ReceiveKeepsWake(o, s);
    } else if IsControlEvent(e) {
      ControlKeepsWake(o, s, e);
    } else {
      SweepKeepsWake(o, s, e);
    }
  }

  // ---- Files are complete and never go back ----

  predicate Logged(log: seq<Target>, r: Room, snapshot: Snapshot)
  {
    snapshot.stamp < |log| && log[snapshot.stamp] == Target(r, snapshot)
  }

  /** A file is complete, is a clip accepted for its room, and is the newest ever put in place. */
  predicate FilesNewest(files: map<Room, Content>, high: map<Room, nat>, log: seq<Target>)
  {
    forall r :: r in files ==>
      files[r].Complete? && Logged(log, r, files[r].snapshot) && r in high && files[r].snapshot.stamp == high[r]
  }

  predicate DirtyAhead(dirty: map<Room, Snapshot>, high: map<Room, nat>, log: seq<Target>)
  {
    forall r :: r in dirty ==> Logged(log, r, dirty[r]) && (r in high ==> high[r] <= dirty[r].stamp)
  }

  predicate IndexBehind(index: map<Room, Snapshot>, high: map<Room, nat>, log: seq<Target>)
  {
    forall r :: r in index ==> Logged(log, r, index[r]) && r in high && index[r].stamp <= high[r]
  }

  predicate Writing(w: Worker)
  {
    !w.Idle? && !w.Took? && !w.Unqueued?
  }

  /** The snapshot in the worker's hands is newer than its file and older than a newly dirty one. */
  predicate WorkerAhead(w: Worker, dirty: map<Room, Snapshot>, high: map<Room, nat>, temps: map<Room, Content>,
                        log: seq<Target>)
  {
    Writing(w) ==>
      && Logged(log, w.room, w.snapshot)
      && (w.room in high ==> high[w.room] <= w.snapshot.stamp)
      && (w.room in dirty ==> w.snapshot.stamp < dirty[w.room].stamp)
      && (w.TempSynced? ==> w.room in temps && temps[w.room] == Complete(w.snapshot))
      && (w.Renamed? || w.Accounted? ==> w.room in high && high[w.room] == w.snapshot.stamp)
  }

  predicate FileInv(s: State)
  {
    && (forall r :: r in s.high ==> s.high[r] < |s.log|)
    && FilesNewest(s.files, s.high, s.log)
    && DirtyAhead(s.dirty, s.high, s.log)
    && IndexBehind(s.index, s.high, s.log)
    && WorkerAhead(s.worker, s.dirty, s.high, s.temps, s.log)
  }

  lemma {:induction false} AcceptKeepsFiles(o: Options, s: State, e: Event)
    requires FileInv(s) && Enabled(o, s, e) && e.Accept?
    ensures FileInv(ProducerStep(s, e))
  {
  }

  lemma {:induction false} GiveBackKeepsFiles(s: State)
    requires FileInv(s) && Writing(s.worker)
    ensures FileInv(GiveBack(s))
  {
  }

  lemma {:induction false} RenameKeepsFiles(o: Options, s: State, e: Event)
    requires FileInv(s) && Enabled(o, s, e) && e.Rename? && !Fails(o, s, e)
    ensures FileInv(Advance(o, s, e))
  {
    var s' := Advance(o, s, e);
    assert s'.dirty == s.dirty && s'.index == s.index && s'.log == s.log;
    assert s'.files == s.files[s.worker.room := Complete(s.worker.snapshot)];
  }

  lemma {:induction false} TakeKeepsFiles(o: Options, s: State)
    requires FileInv(s) && Enabled(o, s, Take) && s.worker.room in s.dirty
    ensures FileInv(Advance(o, s, Take))
  {
  }

  lemma {:induction false} FinishKeepsFiles(o: Options, s: State, e: Event)
    requires FileInv(s) && Enabled(o, s, e) && (e.Take? || e.Index?) && Finishes(s, e)
    ensures FileInv(Advance(o, s, e))
  {
  }

  lemma {:induction false} AdvanceKeepsFiles(o: Options, s: State, e: Event)
    requires FileInv(s) && Enabled(o, s, e) && IsWorkerEvent(e) && !Fails(o, s, e)
    requires !e.Rename? && !e.Take? && !e.Index?
    ensures FileInv(Advance(o, s, e))
  {
  }

  lemma {:induction false} ControlKeepsFiles(o: Options, s: State, e: Event)
    requires FileInv(s) && Enabled(o, s, e) && IsControlEvent(e)
    ensures FileInv(ControlStep(o, s, e))
  {
  }

  lemma {:induction false} SweepKeepsFiles(o: Options, s: State, e: Event)
    requires FileInv(s) && Enabled(o, s, e)
    requires !IsProducerEvent(e) && !IsWorkerEvent(e) && !IsControlEvent(e)
    ensures FileInv(SweepStep(s, e))
  {
  }

  lemma {:induction false} ProducerKeepsFiles(o: Options, s: State, e: Event)
    requires FileInv(s) && Enabled(o, s, e) && (e.Enqueue? || e.Signal?)
    ensures FileInv(ProducerStep(s, e))
  {
  }

  lemma {:induction false} StepKeepsFiles(o: Options, s: State, e: Event)
    requires FileInv(s) && Enabled(o, s, e)
    ensures FileInv(Step(o, s, e))
  {
    if e.Accept? {
      AcceptKeepsFiles(o, s, e);
    } else if IsProducerEvent(e) {
      ProducerKeepsFiles(o, s, e);
    } else if IsWorkerEvent(e) {
      if Fails(o, s, e) {
        GiveBackKeepsFiles(s);
      } else if e.Rename? {
        RenameKeepsFiles(o, s, e);
      } else if Finishes(s, e) {
        FinishKeepsFiles(o, s, e);
      } else if e.Take? {
        TakeKeepsFiles(o, s);
      } else {
        AdvanceKeepsFiles(o, s, e);
      }
    } else if IsControlEvent(e) {
      ControlKeepsFiles(o, s, e);
    } else {
      SweepKeepsFiles(o, s, e);
    }
  }

  // ---- The newest clip of a room is never dropped on the floor ----

  /** Where the newest clip of room `r` is: dirty, in the worker's hands, indexed, or swept. */
  predicate LatestAt(r: Room, x: Snapshot, dirty: map<Room, Snapshot>, w: Worker, index: map<Room, Snapshot>,
                     swept: map<Snapshot, int>)
  {
    if r in dirty then dirty[r] == x
    else if Held(w, r) then w.snapshot == x
    else (r in index && index[r] == x) || x in swept
  }

  predicate LatestInv(s: State)
  {
    && (forall r :: r in s.latest ==> LatestAt(r, s.latest[r], s.dirty, s.worker, s.index, s.swept))
    && s.dirty.Keys <= s.latest.Keys && s.index.Keys <= s.latest.Keys
    && (Writing(s.worker) ==> s.worker.room in s.latest)
  }

  lemma {:induction false} ProducerKeepsLatest(o: Options, s: State, e: Event)
    requires LatestInv(s) && Enabled(o, s, e) && IsProducerEvent(e)
    ensures LatestInv(ProducerStep(s, e))
  {
  }

  lemma {:induction false} GiveBackKeepsLatest(s: State)
    requires LatestInv(s) && Writing(s.worker)
    ensures LatestInv(GiveBack(s))
  {
  }

  lemma {:induction false} TakeKeepsLatest(o: Options, s: State)
    requires LatestInv(s) && Enabled(o, s, Take) && s.worker.room in s.dirty
    ensures LatestInv(Advance(o, s, Take))
  {
  }

  lemma {:induction false} TakeNothingKeepsLatest(o: Options, s: State)
    requires LatestInv(s) && Enabled(o, s, Take) && s.worker.room !in s.dirty
    ensures LatestInv(Advance(o, s, Take))
  {
  }

  lemma {:induction false} IndexKeepsLatest(o: Options, s: State)
    requires LatestInv(s) && Enabled(o, s, Index)
    ensures LatestInv(Advance(o, s, Index))
  {
  }

  lemma {:induction false} MoveKeepsLatest(o: Options, s: State, e: Event)
    requires LatestInv(s) && Enabled(o, s, e) && IsWorkerEvent(e) && !Fails(o, s, e) && !e.Take? && !e.Index?
    ensures LatestInv(Advance(o, s, e))
  {
  }

  lemma {:induction false} ControlKeepsLatest(o: Options, s: State, e: Event)
    requires LatestInv(s) && Enabled(o, s, e) && IsControlEvent(e)
    requires s.open || (s.dirty == map[] && s.worker.Idle?)
    ensures LatestInv(ControlStep(o, s, e))
  {
  }

  lemma {:induction false} SweepKeepsLatest(o: Options, s: State, e: Event)
    requires LatestInv(s) && Enabled(o, s, e)
    requires !IsProducerEvent(e) && !IsWorkerEvent(e) && !IsControlEvent(e)
    ensures LatestInv(SweepStep(s, e))
  {
  }

  predicate DownInv(s: State)
  {
    s.open || (s.dirty == map[] && s.worker.Idle? && s.queued == {} && s.channel == [] && s.retry == {}
               && s.producers == map[] && s.sweeper.Resting? && s.index == map[] && s.sizes == map[]
               && s.latest == map[])
  }

  lemma {:induction false} StepKeepsDown(o: Options, s: State, e: Event)
    requires DownInv(s) && Enabled(o, s, e)
    ensures DownInv(Step(o, s, e))
  {
  }

  lemma {:induction false} StepKeepsLatest(o: Options, s: State, e: Event)
    requires LatestInv(s) && DownInv(s) && Enabled(o, s, e)
    ensures LatestInv(Step(o, s, e))
  {
    if IsProducerEvent(e) {
      ProducerKeepsLatest(o, s, e);
    } else if IsWorkerEvent(e) {
      if Fails(o, s, e) {
        GiveBackKeepsLatest(s);
      } else if e.Take? {
        if s.worker.room in s.dirty {
          TakeKeepsLatest(o, s);
        } else {
          TakeNothingKeepsLatest(o, s);
        }
      } else if e.Index? {
        IndexKeepsLatest(o, s);
      } else {
        MoveKeepsLatest(o, s, e);
      }
    } else if IsControlEvent(e) {
      ControlKeepsLatest(o, s, e);
    } else {
      SweepKeepsLatest(o, s, e);
    }
  }

  // ---- Quota ----

  predicate InWrite(w: Worker)
  {
    w.Checked? || w.TempOpened? || w.TempSynced? || w.Renamed?
  }

  /** The accounted bytes fit, and so will they once the write in progress is accounted. */
  ghost predicate Fits(o: Options, sizes: map<Room, nat>, w: Worker)
  {
    && Total(sizes) <= o.maxBytes
    && (InWrite(w) ==> Total(sizes - {w.room}) + w.snapshot.size <= o.maxBytes)
  }

  ghost predicate QuotaInv(o: Options, s: State)
  {
    s.scanOk ==> Fits(o, s.sizes, s.worker)
  }

  /** The subtraction in the prospective size cannot underflow: it takes out a summand. */
  lemma {:induction false} ProspectiveIsSum(sizes: map<Room, nat>, r: Room, size: nat)
    ensures Prospective(sizes, r, size) == Total(sizes - {r}) + size
    ensures Total(sizes) >= if r in sizes then sizes[r] else 0
  {
    TotalUpdate(sizes, r, size);
  }

  lemma {:induction false} ShrinkKeepsFit(o: Options, sizes: map<Room, nat>, w: Worker, r: Room)
    requires Fits(o, sizes, w)
    ensures Fits(o, sizes - {r}, w)
  {
    TotalUpdate(sizes, r, 0);
    if InWrite(w) {
      TotalUpdate(sizes - {w.room}, r, 0);
      assert sizes - {r} - {w.room} == sizes - {w.room} - {r};
    }
  }

  lemma {:induction false} AccountKeepsFit(o: Options, sizes: map<Room, nat>, w: Worker)
    requires Fits(o, sizes, w) && InWrite(w)
    ensures Fits(o, sizes[w.room := w.snapshot.size], Accounted(w.room, w.rest, w.snapshot))
  {
    TotalUpdate(sizes, w.room, w.snapshot.size);
  }

  lemma {:induction false} NextKeepsFit(o: Options, sizes: map<Room, nat>, w: Worker, dirty: map<Room, Snapshot>,
                                        e: Event)
    requires Fits(o, sizes, w) && WorkerReady(w, e) && !e.CheckQuota? && !e.SyncDir?
    ensures Fits(o, sizes, WorkerNext(w, dirty, e))
  {
  }

  lemma {:induction false} AdvanceKeepsQuota(o: Options, s: State, e: Event)
    requires QuotaInv(o, s) && Enabled(o, s, e) && IsWorkerEvent(e) && !Fails(o, s, e)
    ensures QuotaInv(o, Advance(o, s, e))
  {
    if s.scanOk {
      if e.CheckQuota? {
        ProspectiveIsSum(s.sizes, s.worker.room, s.worker.snapshot.size);
      } else if e.SyncDir? {
        AccountKeepsFit(o, s.sizes, s.worker);
      } else {
        NextKeepsFit(o, s.sizes, s.worker, s.dirty, e);
      }
    }
  }

  lemma {:induction false} ControlKeepsQuota(o: Options, s: State, e: Event)
    requires QuotaInv(o, s) && DownInv(s) && Enabled(o, s, e) && IsControlEvent(e)
    ensures QuotaInv(o, ControlStep(o, s, e))
  {
  }

  lemma {:induction false} SweepKeepsQuota(o: Options, s: State, e: Event)
    requires QuotaInv(o, s) && Enabled(o, s, e)
    requires !IsProducerEvent(e) && !IsWorkerEvent(e) && !IsControlEvent(e)
    ensures QuotaInv(o, SweepStep(s, e))
  {
    if e.SweepSize? && s.scanOk {
      ShrinkKeepsFit(o, s.sizes, s.worker, s.sweeper.target.room);
    }
  }

  lemma {:induction false} GiveBackKeepsQuota(o: Options, s: State)
    requires QuotaInv(o, s) && Writing(s.worker)
    ensures QuotaInv(o, GiveBack(s))
  {
  }

  lemma {:induction false} ProducerKeepsQuota(o: Options, s: State, e: Event)
    requires QuotaInv(o, s) && Enabled(o, s, e) && IsProducerEvent(e)
    ensures QuotaInv(o, ProducerStep(s, e))
  {
  }

  lemma {:induction false} StepKeepsQuota(o: Options, s: State, e: Event)
    requires QuotaInv(o, s) && DownInv(s) && Enabled(o, s, e)
    ensures QuotaInv(o, Step(o, s, e))
  {
    if IsProducerEvent(e) {
      ProducerKeepsQuota(o, s, e);
    } else if IsWorkerEvent(e) {
      if Fails(o, s, e) {
        GiveBackKeepsQuota(o, s);
      } else {
        AdvanceKeepsQuota(o, s, e);
      }
    } else if IsControlEvent(e) {
      ControlKeepsQuota(o, s, e);
    } else {
      SweepKeepsQuota(o, s, e);
    }
  }

  // ---- The sweeper ----

  function Targets(sw: Sweeper): (todo: seq<Target>)
  {
    if sw.Resting? then [] else sw.todo
  }

  /** The target being removed, if any, and those still to be removed. */
  function Judged(sw: Sweeper): (targets: seq<Target>)
  {
    (if sw.Unindexed? || sw.Unsized? then [sw.target] else []) + Targets(sw)
  }

  /** Rooms the current sweep may still delete from. */
  predicate InSweep(sw: Sweeper, r: Room)
  {
    exists t :: t in Judged(sw) && t.room == r
  }

  /** No write of a room is in flight while a sweep is working on that room. */
  ghost predicate Calm(s: State)
  {
    Writing(s.worker) ==> !InSweep(s.sweeper, s.worker.room)
  }

  /** What a sweep set out to remove was expired, and what is in the index instead is newer. */
  predicate TargetOk(t: Target, now: int, ttl: int, index: map<Room, Snapshot>, high: map<Room, nat>, log: seq<Target>)
  {
    && Expired(t.snapshot.ts, now, ttl) && Logged(log, t.room, t.snapshot)
    && t.room in high && t.snapshot.stamp <= high[t.room]
    && (t.room in index ==> index[t.room] == t.snapshot || t.snapshot.stamp < index[t.room].stamp)
  }

  ghost predicate TargetInv(o: Options, s: State)
  {
    forall t :: t in Judged(s.sweeper) ==> TargetOk(t, s.sweeper.now, o.ttl, s.index, s.high, s.log)
  }

  lemma {:induction false} IndexKeepsTargets(o: Options, s: State)
    requires TargetInv(o, s) && FileInv(s) && Enabled(o, s, Index)
    ensures TargetInv(o, Advance(o, s, Index))
  {
  }

  lemma {:induction false} RenameKeepsTargets(o: Options, s: State, e: Event)
    requires TargetInv(o, s) && FileInv(s) && Enabled(o, s, e) && e.Rename? && !Fails(o, s, e)
    ensures TargetInv(o, Advance(o, s, e))
  {
  }

  lemma {:induction false} AdvanceKeepsTargets(o: Options, s: State, e: Event)
    requires TargetInv(o, s) && Enabled(o, s, e) && IsWorkerEvent(e) && !Fails(o, s, e) && !e.Index? && !e.Rename?
    ensures TargetInv(o, Advance(o, s, e))
  {
  }

  lemma {:induction false} GiveBackKeepsTargets(o: Options, s: State)
    requires TargetInv(o, s) && Writing(s.worker)
    ensures TargetInv(o, GiveBack(s))
  {
  }

  lemma {:induction false} ProducerKeepsTargets(o: Options, s: State, e: Event)
    requires TargetInv(o, s) && Enabled(o, s, e) && IsProducerEvent(e)
    ensures TargetInv(o, ProducerStep(s, e))
  {
  }

  lemma {:induction false} SweeperTargets(sw: Sweeper, index: map<Room, Snapshot>, e: Event)
    requires (sw.Resting? && e.StartSweep?)
             || (sw.Collecting? && (e.EndCollect? || (e.Collect? && e.room in index)))
             || (sw.Sweeping? && e.SweepIndex?) || (sw.Unindexed? && e.SweepSize?)
             || (sw.Unsized? && e.SweepFile?)
    ensures var sw' := SweeperNext(sw, index, e);
            && (forall t :: t in Judged(sw') ==>
                  (t in Judged(sw) || (e.Collect? && t == Target(e.room, index[e.room]))) && sw'.now == sw.now)
            && (forall t :: t in Targets(sw') ==>
                  t in Targets(sw) || (e.Collect? && t == Target(e.room, index[e.room])))
  {
  }

  lemma {:induction false} FewerTargets(o: Options, s: State, s': State)
    requires TargetInv(o, s) && s'.high == s.high && s'.log == s.log
    requires forall t :: t in Judged(s'.sweeper) ==> t in Judged(s.sweeper) && s'.sweeper.now == s.sweeper.now
    requires forall r :: r in s'.index ==> r in s.index && s'.index[r] == s.index[r]
    ensures TargetInv(o, s')
  {
  }

  lemma {:induction false} CollectKeepsTargets(o: Options, s: State, r: Room)
    requires TargetInv(o, s) && FileInv(s) && Enabled(o, s, Collect(r))
    ensures TargetInv(o, SweepStep(s, Collect(r)))
  {
  }

  lemma {:induction false} SweepKeepsTargets(o: Options, s: State, e: Event)
    requires TargetInv(o, s) && FileInv(s) && Enabled(o, s, e)
    requires !IsProducerEvent(e) && !IsWorkerEvent(e) && !IsControlEvent(e)
    ensures TargetInv(o, SweepStep(s, e))
  {
    if e.Collect? {
      CollectKeepsTargets(o, s, e.room);
    } else {
      SweeperTargets(s.sweeper, s.index, e);
      IndexShrinks(s, SweepStep(s, e), e);
      FewerTargets(o, s, SweepStep(s, e));
    }
  }

  lemma {:induction false} IndexShrinks(s: State, s': State, e: Event)
    requires Unindexes(s, e) ==> s'.index == s.index - {s.sweeper.todo[0].room}
    requires !Unindexes(s, e) ==> s'.index == s.index
    ensures forall r :: r in s'.index ==> r in s.index && s'.index[r] == s.index[r]
  {
  }

  lemma {:induction false} ControlKeepsTargets(o: Options, s: State, e: Event)
    requires TargetInv(o, s) && DownInv(s) && Enabled(o, s, e) && IsControlEvent(e)
    ensures TargetInv(o, ControlStep(o, s, e))
  {
  }

  lemma {:induction false} StepKeepsTargets(o: Options, s: State, e: Event)
    requires TargetInv(o, s) && FileInv(s) && DownInv(s) && Enabled(o, s, e)
    ensures TargetInv(o, Step(o, s, e))
  {
    if IsProducerEvent(e) {
      ProducerKeepsTargets(o, s, e);
    } else if IsWorkerEvent(e) {
      if Fails(o, s, e) {
        GiveBackKeepsTargets(o, s);
      } else if e.Index? {
        IndexKeepsTargets(o, s);
      } else if e.Rename? {
        RenameKeepsTargets(o, s, e);
      } else {
        AdvanceKeepsTargets(o, s, e);
      }
    } else if IsControlEvent(e) {
      ControlKeepsTargets(o, s, e);
    } else {
      SweepKeepsTargets(o, s, e);
    }
  }

  // ---- All of it, over every run ----

  ghost predicate Inv(o: Options, s: State)
  {
    WakeInv(s) && FileInv(s) && LatestInv(s) && DownInv(s) && QuotaInv(o, s) && TargetInv(o, s)
  }

  lemma {:induction false} StepKeepsInv(o: Options, s: State, e: Event)
    requires Inv(o, s) && Enabled(o, s, e)
    ensures Inv(o, Step(o, s, e))
  {
    StepKeepsWake(o, s, e);
    StepKeepsFiles(o, s, e);
    StepKeepsLatest(o, s, e);
    StepKeepsDown(o, s, e);
    StepKeepsQuota(o, s, e);
    StepKeepsTargets(o, s, e);
  }

  lemma {:induction false} InitEstablishesInv(o: Options, s: State)
    requires Init(s)
    ensures Inv(o, s)
  {
  }

  lemma {:induction false} RunKeepsInv(o: Options, s: State, events: seq<Event>)
    requires Inv(o, s) && Legal(o, s, events)
    ensures Inv(o, Run(o, s, events))
    decreases |events|
  {
    if events != [] {
      StepKeepsInv(o, s, events[0]);
      RunKeepsInv(o, Step(o, s, events[0]), events[1..]);
    }
  }

  // ---- Theorems ----

  /** Nobody has anything left to do. */
  predicate Quiet(s: State)
  {
    s.worker.Idle? && s.channel == [] && s.retry == {} && s.producers == map[]
  }

  /** No lost wakeup: in every reachable state each dirty room is signalled, retried, about to be
      looked at or about to be signalled; so when everything is idle nothing is dirty and the index
      holds the newest clip of every room, except for clips a sweep took out. */
  lemma {:induction false} NoLostWakeup(o: Options, s: State, events: seq<Event>)
    requires Init(s) && Legal(o, s, events)
    ensures var s' := Run(o, s, events);
            && WakeInv(s')
            && (Quiet(s') ==>
                  && s'.dirty == map[]
                  && forall r :: r in s'.latest ==>
                       (r in s'.index && s'.index[r] == s'.latest[r]) || s'.latest[r] in s'.swept)
  {
    InitEstablishesInv(o, s);
    RunKeepsInv(o, s, events);
    QuietFacts(o, Run(o, s, events));
  }

  lemma {:induction false} QuietFacts(o: Options, s: State)
    requires Inv(o, s)
    ensures Quiet(s) ==>
              && s.dirty == map[]
              && forall r :: r in s.latest ==> (r in s.index && s.index[r] == s.latest[r]) || s.latest[r] in s.swept
  {
  }

  /** The mailbox serves the newest clip of a room whenever no write of it is in flight: the
      unpublished one first, else the published one, unless it is expired or was swept. */
  lemma {:induction false} LoadPendingIsLatest(o: Options, s: State, events: seq<Event>, r: Room, now: int)
    requires Init(s) && Legal(o, s, events)
    requires var s' := Run(o, s, events); r in s'.latest && !Held(s'.worker, r) && s'.latest[r] !in s'.swept
    ensures var s' := Run(o, s, events);
            LoadPending(o, s', r, now) == if now - s'.latest[r].ts <= o.ttl then Some(s'.latest[r]) else None
  {
    InitEstablishesInv(o, s);
    RunKeepsInv(o, s, events);
    var s' := Run(o, s, events);
    assert LatestAt(r, s'.latest[r], s'.dirty, s'.worker, s'.index, s'.swept);
  }

  lemma {:induction false} StepHighGrows(o: Options, s: State, e: Event, r: Room)
    requires FileInv(s) && Enabled(o, s, e) && r in s.high
    ensures r in Step(o, s, e).high && s.high[r] <= Step(o, s, e).high[r]
  {
  }

  lemma {:induction false} RunHighGrows(o: Options, s: State, events: seq<Event>, r: Room)
    requires Inv(o, s) && Legal(o, s, events) && r in s.high
    ensures r in Run(o, s, events).high && s.high[r] <= Run(o, s, events).high[r]
    decreases |events|
  {
    if events != [] {
      StepKeepsInv(o, s, events[0]);
      StepHighGrows(o, s, events[0], r);
      RunHighGrows(o, Step(o, s, events[0]), events[1..], r);
    }
  }

  /** Crash-atomic, monotone publication: at every point of every run, including inside a write and
      after failed and repeated ones, a room's file is absent or one complete clip accepted for that
      room, and no later file content is older than an earlier one. */
  lemma {:induction false} PublicationMonotone(o: Options, s: State, before: seq<Event>, after: seq<Event>, r: Room)
    requires Init(s) && Legal(o, s, before) && Legal(o, Run(o, s, before), after)
    ensures var f := Run(o, s, before).files;
            var s' := Run(o, Run(o, s, before), after);
            && (r in s'.files ==> s'.files[r].Complete? && Logged(s'.log, r, s'.files[r].snapshot))
            && (r in f && r in s'.files ==>
                  f[r].Complete? && f[r].snapshot.stamp <= s'.files[r].snapshot.stamp)
  {
    InitEstablishesInv(o, s);
    RunKeepsInv(o, s, before);
    var mid := Run(o, s, before);
    RunKeepsInv(o, mid, after);
    if r in mid.files {
      RunHighGrows(o, mid, after, r);
    }
  }

  /** Quota: from a start-up scan within quota, the accounted bytes never exceed it, and the
      subtraction that computes the prospective size never underflows. */
  lemma {:induction false} QuotaRespected(o: Options, s: State, events: seq<Event>)
    requires Init(s) && Legal(o, s, events) && Run(o, s, events).scanOk
    ensures var s' := Run(o, s, events);
            && Total(s'.sizes) <= o.maxBytes
            && forall r, size: nat :: Prospective(s'.sizes, r, size) >= size
  {
    InitEstablishesInv(o, s);
    RunKeepsInv(o, s, events);
    var s' := Run(o, s, events);
    forall r, size: nat
      ensures Prospective(s'.sizes, r, size) >= size
    {
      ProspectiveIsSum(s'.sizes, r, size);
    }
  }

  /** A sweep takes out of the index the expired clip it collected or a strictly newer clip of the room, which it
      never judged. */
  lemma {:induction false} SweepTakesCollectedOrNewer(o: Options, s: State, events: seq<Event>)
    requires Init(s) && Legal(o, s, events) && Unindexes(Run(o, s, events), SweepIndex)
    ensures var s' := Run(o, s, events);
            var t := s'.sweeper.todo[0];
            && s'.sweeper.now - t.snapshot.ts > o.ttl
            && (s'.index[t.room] == t.snapshot <==> s'.index[t.room].stamp <= t.snapshot.stamp)
  {
    InitEstablishesInv(o, s);
    RunKeepsInv(o, s, events);
    var s' := Run(o, s, events);
    assert s'.sweeper.todo[0] in Judged(s'.sweeper);
  }
}
