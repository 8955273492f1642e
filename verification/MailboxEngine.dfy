/** The mailbox as the program runs it: shared maps, channel and directory updated statement by
    statement, each call proved to have exactly the effect `MailboxTurns` gives it. */
module MailboxEngine {
  import opened Prelude
  import opened Mailbox
  import opened MailboxTurns

  /** The worker's turns for all rooms it has still to visit. */
  ghost function TurnAll(o: Options, s: State, envs: seq<WriteEnv>): (s': State)
    requires s.worker.Idle? || (s.worker.Took? && |envs| == |s.worker.rest| + 1)
    decreases |envs|
  {
    if s.worker.Idle? then s else TurnAll(o, Turn(o, s, envs[0]), envs[1..])
  }

  lemma {:induction false} TurnFields(s: State, k: nat)
    requires s.worker.Took? && s.worker.room in s.dirty
    ensures var s', room, x := WrittenTo(s, k), s.worker.room, s.dirty[s.worker.room];
            && s'.queued == s.queued - {room} && s'.channel == s.channel
            && s'.files == FilesAfter(s.files, room, x, k) && s'.temps == TempsAfter(s.temps, room, x, k)
            && s'.sizes == (if k == 4 then s.sizes[room := x.size] else s.sizes)
            && s'.index == (if k == 4 then s.index[room := x] else s.index)
            && s'.dirty == (if k == 4 then s.dirty - {room} else s.dirty)
            && s'.retry == (if k == 4 then s.retry else s.retry + {room})
  {
  }

  /** `view` is the abstract state the fields implement. */
  class PersistentMailbox {
    const o: Options
    var index: map<Room, Snapshot>
    var dirty: map<Room, Snapshot>
    var queued: set<Room>
    var sizes: map<Room, nat>
    var channel: seq<Room>
    var retry: set<Room>
    var files: map<Room, Content>
    var temps: map<Room, Content>
    ghost var view: State

    ghost predicate Valid()
      reads this
    {
      && index == view.index && dirty == view.dirty && queued == view.queued && sizes == view.sizes
      && channel == view.channel && retry == view.retry && files == view.files && temps == view.temps
    }

    /** Refuses a malformed room id, else stores the clip and signals the worker unless a signal for
        the room is already under way. */
    method ClipPending(room: Room, x: Snapshot)
      requires Valid()
      modifies this
      ensures Valid() && view == if ValidRoom(room) then Handed(old(view), room, x) else old(view)
    {
      if !ValidRoom(room) {
        return;
      }
      dirty := dirty[room := x];
      if room !in queued {
        queued := queued + {room};
        channel := channel + [room];
      }
      assert queued == old(queued) + {room};
      view := Handed(view, room, x);
    }

    method LoadPendingClip(room: Room, now: int) returns (clip: Option<Snapshot>)
      requires Valid()
      ensures clip == LoadPending(o, view, room, now)
      ensures clip == if room in dirty then (if now - dirty[room].ts <= o.ttl then Some(dirty[room]) else None)
                      else if room in index && now - index[room].ts <= o.ttl then Some(index[room]) else None
    {
      clip := None;
      if room in dirty {
        clip := Some(dirty[room]);
      } else if room in index {
        clip := Some(index[room]);
      }
      if clip.Some? && Expired(clip.value.ts, now, o.ttl) {
        clip := None;
      }
    }

    /** Sum of the accounted file sizes. */
    method SumSizes() returns (bytes: nat)
      ensures bytes == Total(sizes)
    {
      bytes := 0;
      var left := sizes.Keys;
      ghost var done: map<Room, nat> := map[];
      while left != {}
        invariant left <= sizes.Keys
        invariant done == map r | r in sizes && r !in left :: sizes[r]
        invariant bytes == Total(done)
      {
        var r :| r in left;
        bytes := bytes + sizes[r];
        left := left - {r};
        TotalUpdate(done, r, sizes[r]);
        assert done - {r} == done;
        done := done[r := sizes[r]];
      }
      assert done == sizes;
    }

    /** Quota check, temporary file, rename, directory sync; the first failure ends the write. */
    method WriteSnapshot(room: Room, x: Snapshot, env: WriteEnv) returns (ok: bool)
      modifies this`files, this`temps
      ensures var k := Stage(Prospective(sizes, room, x.size) <= o.maxBytes, env);
              && (ok <==> k == 4)
              && files == FilesAfter(old(files), room, x, k) && temps == TempsAfter(old(temps), room, x, k)
    {
      var total := SumSizes();
      var own := if room in sizes then sizes[room] else 0;
      if total - own + x.size > o.maxBytes || !env.opens {
        return false;
      }
      temps := temps[room := Partial];
      if !env.syncs {
        return false;
      }
      temps := temps[room := Complete(x)];
      assert temps == old(temps)[room := Complete(x)];
      if !env.renames {
        return false;
      }
      files := files[room := temps[room]];
      temps := temps - {room};
      assert temps == old(temps) - {room};
      return env.syncsDir;
    }

    /** Index the published clip, or put it back unless a newer one arrived, and retry the room. */
    method Settle(room: Room, x: Snapshot, ok: bool)
      modifies this`sizes, this`index, this`dirty, this`retry
      ensures sizes == if ok then old(sizes)[room := x.size] else old(sizes)
      ensures index == if ok then old(index)[room := x] else old(index)
      ensures dirty == if ok || room in old(dirty) then old(dirty) else old(dirty)[room := x]
      ensures retry == if ok then old(retry) else old(retry) + {room}
    {
      if ok {
        sizes := sizes[room := x.size];
        index := index[room := x];
      } else {
        if room !in dirty {
          dirty := dirty[room := x];
        }
        retry := retry + {room};
      }
    }

    method PublishClip(room: Room, x: Snapshot, env: WriteEnv) returns (ghost k: nat)
      requires room in dirty && dirty[room] == x
      modifies this`files, this`temps, this`sizes, this`index, this`dirty, this`retry
      ensures k == Stage(Prospective(old(sizes), room, x.size) <= o.maxBytes, env)
      ensures files == FilesAfter(old(files), room, x, k) && temps == TempsAfter(old(temps), room, x, k)
      ensures sizes == if k == 4 then old(sizes)[room := x.size] else old(sizes)
      ensures index == if k == 4 then old(index)[room := x] else old(index)
      ensures dirty == if k == 4 then old(dirty) - {room} else old(dirty)
      ensures retry == if k == 4 then old(retry) else old(retry) + {room}
    {
      k := Stage(Prospective(sizes, room, x.size) <= o.maxBytes, env);
      dirty := dirty - {room};
      var ok := WriteSnapshot(room, x, env);
      Settle(room, x, ok);
      assert (old(dirty) - {room})[room := x] == old(dirty);
    }

    method PublishDirty(room: Room, env: WriteEnv)
      requires Valid() && view.worker.Took? && view.worker.room == room && room in dirty
      modifies this
      ensures Valid()
      ensures var fits := Prospective(old(sizes), room, old(dirty)[room].size) <= o.maxBytes;
              view == WrittenTo(old(view), Stage(fits, env))
    {
      queued := queued - {room};
      ghost var k := PublishClip(room, dirty[room], env);
      TurnFields(view, k);
      view := WrittenTo(view, k);
    }

    /** The worker's turn for one room: write the newest clip, or keep it and retry the room. */
    method Publish(room: Room, env: WriteEnv)
      requires Valid() && view.worker.Took? && view.worker.room == room
      modifies this
      ensures Valid() && view == Turn(o, old(view), env)
    {
      if room in dirty {
        PublishDirty(room, env);
      } else {
        queued := queued - {room};
        view := Turn(o, view, env);
      }
    }

    /** One signal off the channel. */
    method Serve(env: WriteEnv)
      requires Valid() && view.worker.Idle? && channel != []
      modifies this
      ensures Valid()
      ensures view == Turn(o, old(view).(channel := old(channel)[1..], worker := Took(old(channel)[0], [])), env)
    {
      var room := channel[0];
      channel := channel[1..];
      view := view.(channel := channel, worker := Took(room, []));
      Publish(room, env);
    }

    /** The retry tick: every failed room gets one more turn. */
    method RetryAll(rooms: seq<Room>, envs: seq<WriteEnv>)
      requires Valid() && view.worker.Idle? && retry != {} && retry == (set r | r in rooms) && |envs| == |rooms|
      modifies this
      ensures Valid() && view == TurnAll(o, old(view).(retry := {}, worker := Next(rooms)), envs)
    {
      retry := {};
      view := view.(retry := {}, worker := Next(rooms));
      ghost var start := view;
      for i := 0 to |rooms|
        invariant Valid() && view.worker == Next(rooms[i..])
        invariant TurnAll(o, start, envs) == TurnAll(o, view, envs[i..])
      {
        assert rooms[i..][0] == rooms[i] && rooms[i..][1..] == rooms[i + 1..];
        assert envs[i..][0] == envs[i] && envs[i..][1..] == envs[i + 1..];
        Publish(rooms[i], envs[i]);
      }
    }

    method RemoveRoom(room: Room, ok: bool, ghost now: int)
      requires Valid() && room in index
      modifies this
      ensures Valid() && view == Unpublished(old(view), room, ok, now)
    {
      view := Unpublished(view, room, ok, now);
      index := index - {room};
      sizes := sizes - {room};
      if ok {
        files := files - {room};
      }
    }

    /** Removes every expired clip; `stuck` are the rooms whose file cannot be removed. */
    method SweepExpired(now: int, stuck: set<Room>) returns (removed: nat)
      requires Valid()
      modifies this
      ensures Valid() && view == Removed(old(view), ExpiredRooms(old(index), now, o.ttl), stuck, now)
      ensures removed == |ExpiredRooms(old(index), now, o.ttl)|
      ensures forall r :: r in index <==> r in old(index) && now - old(index)[r].ts <= o.ttl
    {
      var expired := ExpiredRooms(index, now, o.ttl);
      removed := 0;
      var left := expired;
      while left != {}
        invariant Valid() && left <= expired && left <= index.Keys
        invariant removed + |left| == |expired|
        invariant Removed(view, left, stuck, now) == Removed(old(view), expired, stuck, now)
      {
        var r :| r in left;
        RemovedStep(view, r, left - {r}, stuck, now);
        assert left - {r} + {r} == left;
        RemoveRoom(r, r !in stuck, now);
        removed := removed + 1;
        left := left - {r};
      }
      RemovedNone(view, stuck, now);
    }

    /** Reads every file back: drops the expired ones that can be deleted, skips the unreadable ones. */
    method ScanDirectory(now: int, stuck: set<Room>)
      returns (kept: map<Room, Content>, found: map<Room, Snapshot>, lengths: map<Room, nat>)
      ensures kept == ScanFiles(files, now, o.ttl, stuck)
      ensures found == Scan(files, now, o.ttl) && lengths == SizesOf(found)
      ensures forall r :: r in found <==> r in files && files[r].Complete? && now - files[r].snapshot.ts <= o.ttl
    {
      kept, found, lengths := files, map[], map[];
      var left := files.Keys;
      while left != {}
        invariant left <= files.Keys
        invariant kept == map r | r in files && (r in left || r in ScanFiles(files, now, o.ttl, stuck)) :: files[r]
        invariant found == map r | r in Scan(files, now, o.ttl) && r !in left :: Scan(files, now, o.ttl)[r]
        invariant lengths == SizesOf(found)
      {
        var r :| r in left;
        left := left - {r};
        if files[r].Complete? {
          if Expired(files[r].snapshot.ts, now, o.ttl) {
            if r !in stuck {
              kept := kept - {r};
            }
          } else {
            lengths := lengths[r := files[r].snapshot.size];
            found := found[r := files[r].snapshot];
          }
        }
      }
    }

    /** Start-up; `stuck` are the rooms whose expired file cannot be deleted. */
    method Open(now: int, stuck: set<Room>)
      requires Valid() && !view.open
      modifies this
      ensures Valid() && view == ControlStep(o, old(view), Mailbox.Open(now, stuck))
    {
      var kept, found, lengths := ScanDirectory(now, stuck);
      files := kept;
      index := found;
      sizes := lengths;
      view := ControlStep(o, view, Mailbox.Open(now, stuck));
    }
  }
}
