/** The room actor as the program runs it: its maps updated in place, one event at a time. */
module RoomEngine {
  import opened Prelude
  import opened Room

  /** `view` is the abstract state the fields implement. */
  class RoomActor {
    const members: Members
    var memberFps: seq<Fp>
    var online: map<Fp, ConnId>
    var pending: map<Fp, Clip>
    ghost var view: State

    ghost predicate Ready()
      reads this
    {
      && Valid(members) && memberFps == [members.a, members.b]
      && online == view.online && pending == view.pending && view.open && online.Keys <= All(members)
    }

    constructor (members: Members, loaded: Option<(Fp, Clip)>)
      requires Valid(members) && (loaded.Some? ==> loaded.value.0 in All(members))
      ensures Ready() && this.members == members && view == Spawn(members, loaded)
    {
      this.members := members;
      memberFps := [members.a, members.b];
      online := map[];
      pending := if loaded.Some? then map[loaded.value.0 := loaded.value.1] else map[];
      view := Spawn(members, loaded);
    }

    /** Takes the member's waiting clip out of the in-memory mailbox. */
    method TakePending(fp: Fp) returns (bootstrap: Out)
      modifies this`pending
      ensures pending == old(pending) - {fp}
      ensures bootstrap == if fp in old(pending) then Boot(old(pending)[fp]) else Empty
    {
      if fp in pending {
        bootstrap := Boot(pending[fp]);
        pending := pending - {fp};
      } else {
        bootstrap := Empty;
        assert pending - {fp} == pending;
      }
    }

    /** Replaces the member's connection; both frames are reserved and the room activated before either
        frame is published and the member is registered. */
    method Join(fp: Fp, conn: ConnId, env: JoinEnv) returns (frames: seq<Out>)
      requires Ready() && fp in All(members) && conn !in view.used
      modifies this
      ensures Ready() && view == Step(members, old(view), Event.Join(fp, conn, env))
      ensures frames == JoinWire(old(view), fp, env)
    {
      view := OnJoin(view, fp, conn, env);
      online := online - {fp};
      var bootstrap := TakePending(fp);
      frames := [];
      if env.okReserved && env.bootReserved {
        if env.activated {
          frames := [JoinOk, bootstrap];
          online := online[fp := conn];
          assert online == old(online)[fp := conn];
        } else if env.errorSent {
          frames := [ErrorOut];
        }
      }
    }

    /** One recipient of a clip: its connection, or the mailbox if it has none. */
    method Forward(to: Fp, clip: Clip, env: ClipEnv)
      requires online == view.online && pending == view.pending
      modifies this`online, this`pending, this`view
      ensures online == view.online && pending == view.pending && view == Route(old(view), to, clip, env)
    {
      view := Route(view, to, clip, env);
      if to in online {
        if !env.sent {
          online := online - {to};
        }
      } else {
        pending := pending[to := clip];
      }
    }

    /** Only the member's current connection is heard; everyone else in the room gets the clip. */
    method Receive(sender: Fp, conn: ConnId, cipher: string, env: ClipEnv)
      requires Ready()
      modifies this
      ensures Ready() && view == Step(members, old(view), Send(sender, conn, cipher, env))
    {
      ghost var before := view;
      if sender !in online || online[sender] != conn {
        return;
      }
      var clip := Clip(sender, cipher);
      for i := 0 to |memberFps|
        invariant memberFps == [members.a, members.b] && online == view.online && pending == view.pending
        invariant view == if i == 0 || (i == 1 && sender == members.a) then before
                          else Route(before, Other(members, sender), clip, env)
      {
        if memberFps[i] != sender {
          Forward(memberFps[i], clip, env);
        }
      }
    }

    /** Forgets the connection if it is the current one; the actor stops when nobody is left. */
    method Disconnect(fp: Fp, conn: ConnId) returns (stop: bool)
      requires Ready()
      modifies this
      ensures view == Step(members, old(view), Event.Disconnect(fp, conn))
      ensures (stop <==> !view.open) && (!stop ==> Ready())
    {
      view := OnDisconnect(view, fp, conn);
      if fp in online && online[fp] == conn {
        online := online - {fp};
      }
      return online == map[];
    }
  }
}
