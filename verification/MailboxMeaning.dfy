/** What the mailbox serves, sweeps and keeps at start-up, said in plain arithmetic, and when a write is refused. */
module MailboxMeaning {
  import opened Prelude
  import opened Mailbox
  import opened MailboxInvariant
  import opened MailboxTurns
  import opened MailboxSweep

  /** A producer hands in a clip exactly for a room id of 32 lower-case hex digits, while the mailbox is open. */
  lemma {:induction false} AcceptsExactly(o: Options, s: State, p: nat, room: Room, x: Snapshot)
    ensures Enabled(o, s, Accept(p, room, x)) <==>
              && s.open && p !in s.producers && x.stamp == |s.log| && |room| == 32
              && forall i :: 0 <= i < 32 ==> 48 <= room[i] <= 57 || 97 <= room[i] <= 102
  {
    assert forall i :: 0 <= i < |room| ==> room[i] in room;
  }

  /** A clip just accepted is served exactly while it is no older than the time to live, whatever else the mailbox
      holds. */
  lemma {:induction false} AcceptedIsServed(o: Options, s: State, p: nat, room: Room, x: Snapshot, now: int)
    requires Enabled(o, s, Accept(p, room, x))
    ensures LoadPending(o, Step(o, s, Accept(p, room, x)), room, now) == if now - x.ts <= o.ttl then Some(x) else None
  {
  }

  /** What is served is the unpublished clip, else the published one, and only while it is no older than the time to
      live; so what is withheld at one time is withheld at every later time. */
  lemma {:induction false} ServesExactly(o: Options, s: State, room: Room, now: int, later: int)
    requires now <= later
    ensures var clip := LoadPending(o, s, room, now);
            && (clip.Some? <==> if room in s.dirty then now - s.dirty[room].ts <= o.ttl
                                else room in s.index && now - s.index[room].ts <= o.ttl)
            && (clip.Some? ==> clip.value == if room in s.dirty then s.dirty[room] else s.index[room])
            && (clip.None? ==> LoadPending(o, s, room, later).None?)
  {
  }

  /** A retry gives every room whose write failed its turn, in some order, and starts the count of failures anew. */
  lemma {:induction false} RetriesExactly(o: Options, s: State, order: seq<Room>)
    ensures Enabled(o, s, RetryTick(order)) <==>
              s.open && s.worker.Idle? && s.retry != {} && (forall r :: r in order <==> r in s.retry)
    ensures Enabled(o, s, RetryTick(order)) ==>
              order != [] && Step(o, s, RetryTick(order)) == s.(retry := {}, worker := Took(order[0], order[1..]))
  {
    if s.retry != {} {
      var r :| r in s.retry;
      assert (forall x :: x in order <==> x in s.retry) ==> r in order;
    }
    assert (forall x :: x in order <==> x in s.retry) ==> s.retry == set x | x in order;
  }

  /** A stop forgets everything but the directory. */
  lemma {:induction false} StopsWithExactly(o: Options, s: State)
    ensures var s' := Step(o, s, Crash);
            && !s'.open && s'.files == s.files && s'.temps == s.temps
            && s'.index == map[] && s'.dirty == map[] && s'.sizes == map[] && s'.queued == {} && s'.retry == {}
            && s'.channel == [] && s'.worker.Idle? && s'.producers == map[] && s'.sweeper.Resting?
  {
  }

  /** A sweep collects a room exactly when its published clip is older than the time to live and was not collected
      before; the room's clip is what it notes down. */
  lemma {:induction false} CollectsExactly(o: Options, s: State, room: Room)
    ensures Enabled(o, s, Collect(room)) <==>
              && s.open && s.sweeper.Collecting? && room in s.index && s.sweeper.now - s.index[room].ts > o.ttl
              && forall t :: t in s.sweeper.todo ==> t.room != room
    ensures Enabled(o, s, Collect(room)) ==>
              Step(o, s, Collect(room))
              == s.(sweeper := Collecting(s.sweeper.todo + [Target(room, s.index[room])], s.sweeper.now))
  {
  }

  /** An undisturbed sweep takes out of the index exactly the clips older than the time to live, and deletes their
      files except those that cannot be deleted. */
  lemma {:induction false} SweepsExactly(s: State, now: int, ttl: int, stuck: set<Room>, r: Room)
    ensures var s' := Removed(s, ExpiredRooms(s.index, now, ttl), stuck, now);
            var goes := r in s.index && now - s.index[r].ts > ttl;
            && (r in s'.index <==> r in s.index && !goes) && (r in s'.index ==> s'.index[r] == s.index[r])
            && (r in s'.sizes <==> r in s.sizes && !goes)
            && (r in s'.files <==> r in s.files && !(goes && r !in stuck))
            && (r in s'.files ==> s'.files[r] == s.files[r])
            && s'.dirty == s.dirty
  {
  }

  /** A start-up indexes exactly the readable clips no older than the time to live and accounts their sizes; it keeps
      those files, the unreadable ones and the expired ones it cannot delete. */
  lemma {:induction false} StartsWithExactly(o: Options, s: State, now: int, stuck: set<Room>, r: Room)
    requires !s.open
    ensures var s' := Step(o, s, Open(now, stuck));
            var good := r in s.files && s.files[r].Complete? && now - s.files[r].snapshot.ts <= o.ttl;
            && s'.open
            && (r in s'.index <==> good) && (r in s'.sizes <==> good) && (r in s'.latest <==> good)
            && (good ==> s'.index[r] == s.files[r].snapshot == s'.latest[r] && s'.sizes[r] == s.files[r].snapshot.size)
            && (r in s'.files <==> r in s.files && (s.files[r].Partial? || good || r in stuck))
            && (r in s'.files ==> s'.files[r] == s.files[r])
            && (s'.scanOk <==> Total(s'.sizes) <= o.maxBytes)
  {
    var s' := ControlStep(o, s, Open(now, stuck));
    assert s'.index == Scan(s.files, now, o.ttl) && s'.files == ScanFiles(s.files, now, o.ttl, stuck);
  }

  /** The worker's undisturbed turn for a room with a clip to write: the clip is published, with its file, index entry
      and account, exactly when it fits beside the other rooms' accounts and every file operation succeeds; else it
      stays to be written and the room is retried. */
  lemma {:induction false} PublishesExactly(o: Options, s: State, env: WriteEnv)
    requires s.worker.Took? && s.worker.room in s.dirty
    ensures var s', room, x := Turn(o, s, env), s.worker.room, s.dirty[s.worker.room];
            var ok := Total(s.sizes - {room}) + x.size <= o.maxBytes && env.opens && env.syncs && env.renames
                      && env.syncsDir;
            && s'.queued == s.queued - {room} && s'.worker == Next(s.worker.rest)
            && (ok ==>
                  && s'.index == s.index[room := x] && s'.files == s.files[room := Complete(x)]
                  && s'.sizes == s.sizes[room := x.size] && s'.dirty == s.dirty - {room} && s'.retry == s.retry)
            && (!ok ==>
                  && s'.index == s.index && s'.sizes == s.sizes && s'.dirty == s.dirty
                  && s'.retry == s.retry + {room})
  {
    ProspectiveIsSum(s.sizes, s.worker.room, s.dirty[s.worker.room].size);
  }
}
