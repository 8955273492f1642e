/** What the events of a room do to its members: who gets a clip where, what becomes of it, and what a join brings. */
module RoomMeaning {
  import opened Prelude
  import opened Room

  /** What became of the clip processed last for the member. */
  predicate LastFate(s: State, fp: Fp, clip: Clip, fate: Fate)
  {
    var t := TrackOf(s, fp);
    t.processed != [] && t.fates != [] && Last(t.processed) == clip && Last(t.fates) == fate
  }

  /** A clip from a connection that is not the sender's current one changes nothing. */
  lemma {:induction false} StaleSend(m: Members, s: State, fp: Fp, conn: ConnId, cipher: string, env: ClipEnv)
    requires s.open && !(fp in s.online && s.online[fp] == conn)
    ensures Step(m, s, Send(fp, conn, cipher, env)) == s
  {
  }

  /** A clip for a member who is offline waits, in place of any clip that waited before, and is handed to the mailbox;
      nothing is enqueued for anyone. */
  lemma {:induction false} SendToAbsent(m: Members, s: State, fp: Fp, conn: ConnId, cipher: string, env: ClipEnv)
    requires s.open && fp in s.online && s.online[fp] == conn && Other(m, fp) !in s.online
    ensures var s', to, clip := Step(m, s, Send(fp, conn, cipher, env)), if fp == m.a then m.b else m.a,
                                Clip(fp, cipher);
            && s' == s.(pending := s.pending[to := clip], stored := Some((to, clip)), tracks := s'.tracks)
            && LastFate(s', to, clip, Waiting)
  {
  }

  /** A clip for a member who is online goes to the end of its connection, and nowhere else, if it can be enqueued. */
  lemma {:induction false} SendLive(m: Members, s: State, fp: Fp, conn: ConnId, cipher: string, env: ClipEnv)
    requires s.open && fp in s.online && s.online[fp] == conn && Other(m, fp) in s.online && env.sent
    ensures var s', to, clip := Step(m, s, Send(fp, conn, cipher, env)), if fp == m.a then m.b else m.a,
                                Clip(fp, cipher);
            && s' == s.(wires := s'.wires, tracks := s'.tracks)
            && s'.wires == s.wires[s.online[to] := WireOf(s.wires, s.online[to]) + [LiveOut(clip)]]
            && LastFate(s', to, clip, Delivered)
  {
  }

  /** If it cannot be enqueued, the clip is lost and the member is taken offline, with an error on its connection
      exactly if that can be enqueued. */
  lemma {:induction false} SendOverflows(m: Members, s: State, fp: Fp, conn: ConnId, cipher: string, env: ClipEnv)
    requires s.open && fp in s.online && s.online[fp] == conn && Other(m, fp) in s.online && !env.sent
    ensures var s', to, clip := Step(m, s, Send(fp, conn, cipher, env)), if fp == m.a then m.b else m.a,
                                Clip(fp, cipher);
            && s' == s.(online := s.online - {to}, wires := s'.wires, tracks := s'.tracks)
            && (env.errorSent ==> s'.wires == s.wires[s.online[to] := WireOf(s.wires, s.online[to]) + [ErrorOut]])
            && (!env.errorSent ==> s'.wires == s.wires)
            && LastFate(s', to, clip, Overflowed)
  {
  }

  /** A join succeeds exactly when both frames can be reserved and the room is activated. Then the connection is the
      member's current one and gets the confirmation and the clip that waited, or word that none did. Otherwise the
      member is offline, gets at most an error, and the clip that waited is gone all the same. */
  lemma {:induction false} JoinExactly(m: Members, s: State, fp: Fp, conn: ConnId, env: JoinEnv)
    requires Enabled(m, s, Join(fp, conn, env))
    ensures var s' := Step(m, s, Join(fp, conn, env));
            var joined := env.okReserved && env.bootReserved && env.activated;
            && (joined ==>
                  && s'.online == s.online[fp := conn]
                  && s'.wires == s.wires[conn := [JoinOk, if fp in s.pending then Boot(s.pending[fp]) else Empty]])
            && (!joined ==>
                  && s'.online == s.online - {fp}
                  && s'.wires == s.wires[conn := if env.okReserved && env.bootReserved && env.errorSent
                                                 then [ErrorOut] else []])
            && s'.pending == s.pending - {fp} && s'.used == s.used + {conn}
            && s'.stored == s.stored && s'.open == s.open
  {
  }

  /** A disconnect takes the member offline exactly if the connection is its current one, and ends the actor exactly if
      nobody is online then. */
  lemma {:induction false} DisconnectExactly(m: Members, s: State, fp: Fp, conn: ConnId)
    requires Enabled(m, s, Disconnect(fp, conn))
    ensures var s' := Step(m, s, Disconnect(fp, conn));
            && s'.online == (if fp in s.online && s.online[fp] == conn then s.online - {fp} else s.online)
            && (s'.open <==> s'.online != map[])
            && s' == s.(online := s'.online, open := s'.open)
  {
  }

  lemma {:induction false} ResolvedAt(t: Track, fate: Fate, i: nat)
    requires i < |t.fates| && (t.fates[i].Waiting? ==> i == |t.fates| - 1)
    ensures var fates := Resolve(t, fate).fates;
            |fates| == |t.fates| && fates[i] == if t.fates[i].Waiting? then fate else t.fates[i]
  {
  }

  lemma {:induction false} AppendedAt(t: Track, clip: Clip, fate: Fate, i: nat)
    requires i < |t.fates|
    ensures var fates := Append(t, clip, fate).fates; i < |fates| && fates[i] == t.fates[i]
  {
  }

  /** What an event makes of a clip processed for the member before. */
  function FateAfter(s: State, e: Event, fp: Fp, fate: Fate): (fate': Fate)
  {
    if !fate.Waiting? then fate
    else if e.Join? && e.fp == fp then
      if e.jenv.okReserved && e.jenv.bootReserved && e.jenv.activated then Delivered else ConsumedByFailedJoin
    else if e.Send? && e.fp != fp && e.fp in s.online && s.online[e.fp] == e.conn then Overwritten
    else Waiting
  }

  lemma {:induction false} RouteFates(m: Members, s: State, e: Event, fp: Fp, i: nat)
    requires Valid(m) && MailboxInv(m, s) && fp in All(m) && i < |TrackOf(s, fp).fates|
    requires TrackInv(TrackOf(s, fp), PendingOf(s, fp)) && e.Send? && Current(s, e.fp, e.conn) && e.fp != fp
    ensures var fates := TrackOf(Route(s, fp, Clip(e.fp, e.cipher), e.cenv), fp).fates;
            i < |fates| && fates[i] == FateAfter(s, e, fp, TrackOf(s, fp).fates[i])
  {
    var t, clip := TrackOf(s, fp), Clip(e.fp, e.cipher);
    ResolvedAt(t, Overwritten, i);
    if fp !in s.online {
      AppendedAt(Resolve(t, Overwritten), clip, Waiting, i);
    } else {
      AppendedAt(t, clip, if e.cenv.sent then Delivered else Overflowed, i);
    }
  }

  lemma {:induction false} JoinFates(s: State, e: Event, fp: Fp, i: nat)
    requires e.Join? && i < |TrackOf(s, fp).fates| && TrackInv(TrackOf(s, fp), PendingOf(s, fp))
    ensures var fates := TrackOf(OnJoin(s, e.fp, e.conn, e.jenv), fp).fates;
            i < |fates| && fates[i] == FateAfter(s, e, fp, TrackOf(s, fp).fates[i])
  {
    ResolvedAt(TrackOf(s, fp), if Joins(e.jenv) then Delivered else ConsumedByFailedJoin, i);
  }

  predicate Concerns(s: State, e: Event, fp: Fp)
  {
    (e.Join? && e.fp == fp) || (e.Send? && e.fp != fp && Current(s, e.fp, e.conn))
  }

  lemma {:induction false} OtherEvents(m: Members, s: State, e: Event, fp: Fp)
    requires Valid(m) && Enabled(m, s, e) && s.online.Keys <= All(m) && fp in All(m) && !Concerns(s, e, fp)
    ensures TrackOf(Step(m, s, e), fp) == TrackOf(s, fp)
  {
  }

  /** What becomes of the clips processed for a member before: the one that waited is delivered by a join, consumed by a
      join that fails, or overwritten by the next clip that has to wait; nothing else changes. */
  lemma {:induction false} FatesExactly(m: Members, s: State, e: Event, fp: Fp, i: nat)
    requires Valid(m) && MailboxInv(m, s) && TrackInv(TrackOf(s, fp), PendingOf(s, fp)) && Enabled(m, s, e)
    requires fp in All(m) && i < |TrackOf(s, fp).fates|
    ensures var fates := TrackOf(Step(m, s, e), fp).fates;
            i < |fates| && fates[i] == FateAfter(s, e, fp, TrackOf(s, fp).fates[i])
  {
    if !Concerns(s, e, fp) {
      OtherEvents(m, s, e, fp);
    } else if e.Join? {
      JoinFates(s, e, fp, i);
    } else {
      assert e.fp in s.online.Keys;
      RouteFates(m, s, e, fp, i);
    }
  }

  /** No join of the member and no clip for it. */
  predicate Undisturbed(events: seq<Event>, fp: Fp)
  {
    forall e :: e in events ==> !(e.Join? && e.fp == fp) && !(e.Send? && e.fp != fp)
  }

  lemma {:induction false} StepKeepsWaiting(m: Members, s: State, e: Event, fp: Fp)
    requires Valid(m) && MailboxInv(m, s) && Enabled(m, s, e) && fp in All(m) && fp in s.pending
    requires !(e.Join? && e.fp == fp) && !(e.Send? && e.fp != fp)
    ensures var s' := Step(m, s, e); fp in s'.pending && s'.pending[fp] == s.pending[fp]
  {
  }

  lemma {:induction false} KeepsWaiting(m: Members, s: State, events: seq<Event>, fp: Fp)
    requires Valid(m) && MailboxInv(m, s) && Legal(m, s, events) && fp in All(m) && Undisturbed(events, fp)
    requires fp in s.pending
    ensures var s' := Run(m, s, events); fp in s'.pending && s'.pending[fp] == s.pending[fp]
    decreases |events|
  {
    if events != [] {
      assert events[0] in events;
      StepKeepsMailbox(m, s, events[0]);
      StepKeepsWaiting(m, s, events[0], fp);
      KeepsWaiting(m, Step(m, s, events[0]), events[1..], fp);
    }
  }

  /** A clip sent to a member who is offline is what the member's next successful join brings, whatever happens between,
      as long as no further clip is sent to it. */
  lemma {:induction false} WaitingIsBrought(m: Members, s: State, fp: Fp, conn: ConnId, cipher: string, env: ClipEnv,
                                            events: seq<Event>, next: ConnId, join: JoinEnv)
    requires Valid(m) && MailboxInv(m, s) && Enabled(m, s, Send(fp, conn, cipher, env))
    requires fp in s.online && s.online[fp] == conn && Other(m, fp) !in s.online
    requires var s1 := Step(m, s, Send(fp, conn, cipher, env));
             && Legal(m, s1, events) && Undisturbed(events, Other(m, fp))
             && Enabled(m, Run(m, s1, events), Join(Other(m, fp), next, join))
    requires join.okReserved && join.bootReserved && join.activated
    ensures var s2 := Run(m, Step(m, s, Send(fp, conn, cipher, env)), events);
            Step(m, s2, Join(Other(m, fp), next, join)).wires[next] == [JoinOk, Boot(Clip(fp, cipher))]
  {
    SendToAbsent(m, s, fp, conn, cipher, env);
    StepKeepsMailbox(m, s, Send(fp, conn, cipher, env));
    KeepsWaiting(m, Step(m, s, Send(fp, conn, cipher, env)), events, Other(m, fp));
  }
}
