/** What holds over every run of a room actor, from spawn to exit. */
module RoomTheorems {
  import opened Prelude
  import opened Room
  import P = Protocol

  predicate Inv(m: Members, s: State)
  {
    MailboxInv(m, s) && TracksInv(m, s) && WiresInv(s) && Injective(s.online) && ConnsInv(m, s)
  }

  lemma {:induction false} StepKeepsInv(m: Members, s: State, e: Event)
    requires Valid(m) && Inv(m, s) && Enabled(m, s, e)
    ensures Inv(m, Step(m, s, e))
  {
    StepKeepsMailbox(m, s, e);
    StepKeepsTracks(m, s, e);
    StepKeepsWires(m, s, e);
    StepKeepsInjective(m, s, e);
    StepKeepsConns(m, s, e);
  }

  lemma {:induction false} RunKeepsInv(m: Members, s: State, events: seq<Event>)
    requires Valid(m) && Inv(m, s) && Legal(m, s, events)
    ensures Inv(m, Run(m, s, events))
    decreases |events|
  {
    if events != [] {
      StepKeepsInv(m, s, events[0]);
      RunKeepsInv(m, Step(m, s, events[0]), events[1..]);
    }
  }

  lemma {:induction false} SpawnTracks(m: Members, loaded: Option<(Fp, Clip)>)
    requires Valid(m) && (loaded.Some? ==> loaded.value.0 in All(m))
    ensures TracksInv(m, Spawn(m, loaded))
  {
    var blank := Track([], [], [], []);
    assert TrackInv(blank, None) && OverwrittenInv(blank);
    if loaded.Some? {
      StoreKeeps(blank, loaded.value.1);
    }
  }

  lemma {:induction false} SpawnConns(m: Members, loaded: Option<(Fp, Clip)>)
    requires Valid(m) && (loaded.Some? ==> loaded.value.0 in All(m))
    ensures ConnsInv(m, Spawn(m, loaded))
  {
  }

  lemma {:induction false} SpawnWires(m: Members, loaded: Option<(Fp, Clip)>)
    requires Valid(m) && (loaded.Some? ==> loaded.value.0 in All(m))
    ensures MailboxInv(m, Spawn(m, loaded)) && WiresInv(Spawn(m, loaded)) && Injective(Spawn(m, loaded).online)
  {
  }

  lemma {:induction false} SpawnEstablishesInv(m: Members, loaded: Option<(Fp, Clip)>)
    requires Valid(m) && (loaded.Some? ==> loaded.value.0 in All(m))
    ensures Inv(m, Spawn(m, loaded))
  {
    SpawnWires(m, loaded);
    SpawnTracks(m, loaded);
    SpawnConns(m, loaded);
  }

  lemma {:induction false} Reachable(m: Members, loaded: Option<(Fp, Clip)>, events: seq<Event>)
    requires Valid(m) && (loaded.Some? ==> loaded.value.0 in All(m)) && Legal(m, Spawn(m, loaded), events)
    ensures Inv(m, Run(m, Spawn(m, loaded), events))
  {
    SpawnEstablishesInv(m, loaded);
    RunKeepsInv(m, Spawn(m, loaded), events);
  }

  // ---- Delivery ----

  /** The clip an event has the actor process for `fp`: one its peer sent on the connection that is current. */
  function ClipFor(m: Members, s: State, e: Event, fp: Fp): (clips: seq<Clip>)
  {
    if e.Send? && Current(s, e.fp, e.conn) && Other(m, e.fp) == fp then [Clip(e.fp, e.cipher)] else []
  }

  /** The clips a run processes for `fp`: those its peer sent on the connection that was current. */
  function FromPeer(m: Members, s: State, events: seq<Event>, fp: Fp): (clips: seq<Clip>)
    requires Legal(m, s, events)
    decreases |events|
  {
    if events == [] then [] else ClipFor(m, s, events[0], fp) + FromPeer(m, Step(m, s, events[0]), events[1..], fp)
  }

  lemma {:induction false} StepProcesses(m: Members, s: State, e: Event, fp: Fp)
    requires Valid(m) && Enabled(m, s, e)
    ensures TrackOf(Step(m, s, e), fp).processed == TrackOf(s, fp).processed + ClipFor(m, s, e, fp)
  {
  }

  lemma {:induction false} Regroup(a: seq<Clip>, b: seq<Clip>, c: seq<Clip>)
    ensures (a + b) + c == a + (b + c)
  {
  }

  lemma {:induction false} RunProcesses(m: Members, s: State, events: seq<Event>, fp: Fp)
    requires Valid(m) && Legal(m, s, events)
    ensures TrackOf(Run(m, s, events), fp).processed == TrackOf(s, fp).processed + FromPeer(m, s, events, fp)
    decreases |events|
  {
    if events != [] {
      var s' := Step(m, s, events[0]);
      StepProcesses(m, s, events[0], fp);
      RunProcesses(m, s', events[1..], fp);
      Regroup(TrackOf(s, fp).processed, ClipFor(m, s, events[0], fp), FromPeer(m, s', events[1..], fp));
    }
  }

  lemma {:induction false} SelectIsSubseq(processed: seq<Clip>, fates: seq<Fate>)
    requires |processed| == |fates|
    ensures Subseq(Select(processed, fates), processed)
    decreases |fates|
  {
    if fates != [] {
      var n := |fates| - 1;
      SelectIsSubseq(processed[..n], fates[..n]);
      assert processed == processed[..n] + [processed[n]];
      if fates[n].Delivered? {
        SubseqExtend(Select(processed[..n], fates[..n]), processed[..n], processed[n]);
      } else {
        SubseqOfPrefix(Select(processed[..n], fates[..n]), processed[..n], [processed[n]]);
        assert Select(processed, fates) == Select(processed[..n], fates[..n]);
      }
    }
  }

  /** What the mailbox handed the actor for this member when it was spawned. */
  function LoadedFor(loaded: Option<(Fp, Clip)>, fp: Fp): (clips: seq<Clip>)
  {
    if loaded.Some? && loaded.value.0 == fp then [loaded.value.1] else []
  }

  /** The clips enqueued to a member over all its connections, one connection after the other, are an
      in-order selection of the clip loaded at spawn and the clips its peer sent on its then current
      connection. A clip is selected at most once; one that is not was overwritten by a clip stored
      after it, consumed by a join that failed, lost to a full outbox, or is the one still waiting. */
  lemma {:induction false} DeliveryInOrder(m: Members, loaded: Option<(Fp, Clip)>, events: seq<Event>, fp: Fp)
    requires Valid(m) && (loaded.Some? ==> loaded.value.0 in All(m)) && Legal(m, Spawn(m, loaded), events)
             && fp in All(m)
    ensures var s := Run(m, Spawn(m, loaded), events);
            && TrackOf(s, fp).processed == LoadedFor(loaded, fp) + FromPeer(m, Spawn(m, loaded), events, fp)
            && SentInOrder(s, fp)
  {
    SpawnProcessed(m, loaded, fp);
    RunProcesses(m, Spawn(m, loaded), events, fp);
    Reachable(m, loaded, events);
    DeliveryAt(m, Run(m, Spawn(m, loaded), events), fp);
  }

  predicate SentInOrder(s: State, fp: Fp)
  {
    var t := TrackOf(s, fp);
    && TrackInv(t, PendingOf(s, fp))
    && Sent(s.wires, t.conns) == Select(t.processed, t.fates)
    && Subseq(Sent(s.wires, t.conns), t.processed)
  }

  lemma {:induction false} SpawnProcessed(m: Members, loaded: Option<(Fp, Clip)>, fp: Fp)
    requires Valid(m) && (loaded.Some? ==> loaded.value.0 in All(m))
    ensures TrackOf(Spawn(m, loaded), fp).processed == LoadedFor(loaded, fp)
  {
  }

  lemma {:induction false} DeliveryAt(m: Members, s: State, fp: Fp)
    requires Inv(m, s) && fp in All(m)
    ensures SentInOrder(s, fp)
  {
    assert ConnsOk(s, fp) && TrackInv(TrackOf(s, fp), PendingOf(s, fp));
    SelectIsSubseq(TrackOf(s, fp).processed, TrackOf(s, fp).fates);
  }

  // ---- Mailbox ----

  /** At most one member has a clip waiting, it is not online, and the clip is the last one handed to
      the mailbox; so one snapshot per room holds everything the actor's memory holds. */
  lemma {:induction false} OneSnapshotHoldsAll(m: Members, loaded: Option<(Fp, Clip)>, events: seq<Event>)
    requires Valid(m) && (loaded.Some? ==> loaded.value.0 in All(m)) && Legal(m, Spawn(m, loaded), events)
    ensures var s := Run(m, Spawn(m, loaded), events);
            && (s.pending == map[] || (s.stored.Some? && s.pending == map[s.stored.value.0 := s.stored.value.1]))
            && s.pending.Keys !! s.online.Keys
  {
    Reachable(m, loaded, events);
    SnapshotAt(m, Run(m, Spawn(m, loaded), events));
  }

  lemma {:induction false} SnapshotAt(m: Members, s: State)
    requires MailboxInv(m, s)
    ensures s.pending == map[] || (s.stored.Some? && s.pending == map[s.stored.value.0 := s.stored.value.1])
    ensures s.pending.Keys !! s.online.Keys
  {
  }

  // ---- Frame order ----

  /** The frames enqueued on a connection are what the client's table accepts after `Join`: `JoinOk`,
      one bootstrap frame, live clips, at most one error at the end; and a current connection has had
      exactly its `JoinOk` and bootstrap, then live clips only. */
  lemma {:induction false} FrameOrder(m: Members, loaded: Option<(Fp, Clip)>, events: seq<Event>, c: ConnId)
    requires Valid(m) && (loaded.Some? ==> loaded.value.0 in All(m)) && Legal(m, Spawn(m, loaded), events)
    requires c in Run(m, Spawn(m, loaded), events).used
    ensures var s := Run(m, Spawn(m, loaded), events);
            && P.JoinTrace(EventsOf(WireOf(s.wires, c)))
            && (forall fp :: Current(s, fp, c) ==> |WireOf(s.wires, c)| >= 2 && ErrorOut !in WireOf(s.wires, c))
  {
    Reachable(m, loaded, events);
    FrameOrderAt(Run(m, Spawn(m, loaded), events), c);
  }

  lemma {:induction false} NoErrorWhileLive(frames: seq<P.FrameEvent>)
    requires P.After(P.AwaitingJoinOk, frames) == Some(P.Live)
    ensures |frames| >= 2 && P.Error !in frames
  {
    P.JoinTraceExactly(frames);
    var n := |frames| - 1;
    assert n >= 1;
    assert frames == frames[..n] + [frames[n]];
    P.AfterAppend(P.AwaitingJoinOk, frames[..n], [frames[n]]);
    assert [frames[n]][1..] == [];
    assert frames[n] != P.Error;
    assert forall i :: 2 <= i < n ==> frames[i] == frames[2..][i - 2];
  }

  lemma {:induction false} FrameOrderAt(s: State, c: ConnId)
    requires WiresInv(s) && c in s.used
    ensures P.JoinTrace(EventsOf(WireOf(s.wires, c)))
    ensures forall fp :: Current(s, fp, c) ==> |WireOf(s.wires, c)| >= 2 && ErrorOut !in WireOf(s.wires, c)
  {
    var frames := EventsOf(WireOf(s.wires, c));
    assert Reached(s.wires, c) == P.After(P.AwaitingJoinOk, frames);
    P.JoinTraceExactly(frames);
    if Reached(s.wires, c) == Some(P.Live) {
      NoErrorWhileLive(frames);
      assert forall i :: 0 <= i < |frames| ==> frames[i] == EventOf(WireOf(s.wires, c)[i]);
    }
  }

  // ---- Replaced connections ----

  predicate Stale(s: State, c: ConnId)
  {
    c in s.used && forall fp :: fp in s.online ==> s.online[fp] != c
  }

  /** A connection that is no longer current never becomes current again. */
  lemma {:induction false} StaleForever(m: Members, s: State, events: seq<Event>, c: ConnId)
    requires Legal(m, s, events) && Stale(s, c)
    ensures Stale(Run(m, s, events), c)
    decreases |events|
  {
    if events != [] {
      assert Stale(Step(m, s, events[0]), c);
      StaleForever(m, Step(m, s, events[0]), events[1..], c);
    }
  }

  /** After any further run, a clip or disconnect from a stale connection changes nothing, except that a
      disconnect stops the actor exactly when nobody is online. */
  lemma {:induction false} StaleEventsChangeNothing(m: Members, s: State, events: seq<Event>, e: Event)
    requires Legal(m, s, events) && !e.Join? && Stale(s, e.conn)
    requires var s' := Run(m, s, events); Enabled(m, s', e)
    ensures var s' := Run(m, s, events);
            && Step(m, s', e) == s'.(open := !(e.Disconnect? && s'.online == map[]))
            && (Step(m, s', e) == s' <==> !(e.Disconnect? && s'.online == map[]))
  {
    StaleForever(m, s, events, e.conn);
  }

  /** A replaced connection can stop an actor that has a clip in memory: the replacement's join failed, so
      nobody is online when the old connection's disconnect arrives. */
  lemma {:induction false} StaleDisconnectStopsActor(m: Members, clip: Clip)
    requires Valid(m)
    ensures var good, bad := JoinEnv(true, true, true, true), JoinEnv(false, true, true, true);
            var s := Spawn(m, Some((m.b, clip)));
            var s3 := Step(m, Step(m, s, Join(m.a, 1, good)), Join(m.a, 2, bad));
            && Stale(s3, 1) && s3.open && m.b in s3.pending && !Step(m, s3, Disconnect(m.a, 1)).open
  {
  }
}
