/** All connections of a relay and its room registry: what a join is checked against is what the registry holds at
    that moment. A stop of the process is the registry's; the connections it ends may hang up at any time. */
module RelayMembers {
  import opened Prelude
  import K = Crypto
  import C = Connection
  import R = Registry

  datatype State = State(reg: R.State, con: C.State)

  datatype Event = Reg(r: R.Event) | Con(c: C.Event)

  /** What the registry answers for a room; nothing if the room is not registered. */
  function MembersOf(reg: R.State, room: C.RoomId): (fps: set<C.Fp>)
  {
    if room in reg.mem then {reg.mem[room].first, reg.mem[room].second} else {}
  }

  predicate Enabled(s: State, e: Event)
  {
    match e
    case Reg(r) => R.Enabled(s.reg, r)
    case Con(c) =>
      && C.Enabled(s.con, c) && (s.reg.up || c.Hangup?)
      && (c.Receive? && c.frame.Join? ==> c.env.members == MembersOf(s.reg, c.frame.room))
  }

  function Step(suite: K.Suite, s: State, e: Event): (s': State)
    requires Enabled(s, e)
  {
    match e
    case Reg(r) => s.(reg := R.Step(s.reg, r))
    case Con(c) => s.(con := C.Step(suite, s.con, c))
  }

  predicate Legal(suite: K.Suite, s: State, events: seq<Event>)
    decreases |events|
  {
    events == [] || (Enabled(s, events[0]) && Legal(suite, Step(suite, s, events[0]), events[1..]))
  }

  function Run(suite: K.Suite, s: State, events: seq<Event>): (s': State)
    requires Legal(suite, s, events)
    decreases |events|
  {
    if events == [] then s else Run(suite, Step(suite, s, events[0]), events[1..])
  }

  // ---- A run of both is a run of each ----

  function RegsOf(events: seq<Event>): (regs: seq<R.Event>)
    decreases |events|
  {
    if events == [] then [] else (if events[0].Reg? then [events[0].r] else []) + RegsOf(events[1..])
  }

  function ConsOf(events: seq<Event>): (cons: seq<C.Event>)
    decreases |events|
  {
    if events == [] then [] else (if events[0].Con? then [events[0].c] else []) + ConsOf(events[1..])
  }

  lemma {:induction false} RegistryRuns(suite: K.Suite, s: State, events: seq<Event>)
    requires Legal(suite, s, events)
    ensures R.Legal(s.reg, RegsOf(events)) && R.Run(s.reg, RegsOf(events)) == Run(suite, s, events).reg
    decreases |events|
  {
    if events != [] {
      var e, rest := events[0], RegsOf(events[1..]);
      RegistryRuns(suite, Step(suite, s, e), events[1..]);
      if e.Reg? {
        assert ([e.r] + rest)[0] == e.r && ([e.r] + rest)[1..] == rest;
      } else {
        assert [] + rest == rest;
      }
    }
  }

  lemma {:induction false} ConnectionsRun(suite: K.Suite, s: State, events: seq<Event>)
    requires Legal(suite, s, events)
    ensures C.Legal(suite, s.con, ConsOf(events)) && C.Run(suite, s.con, ConsOf(events)) == Run(suite, s, events).con
    decreases |events|
  {
    if events != [] {
      var e, rest := events[0], ConsOf(events[1..]);
      ConnectionsRun(suite, Step(suite, s, e), events[1..]);
      if e.Con? {
        assert ([e.c] + rest)[0] == e.c && ([e.c] + rest)[1..] == rest;
      } else {
        assert [] + rest == rest;
      }
    }
  }

  ghost predicate Inv(suite: K.Suite, s: State)
  {
    R.Inv(s.reg) && C.Inv(suite, s.con)
  }

  lemma {:induction false} ConnStep(suite: K.Suite, s: C.State, e: C.Event)
    requires C.Inv(suite, s) && C.Enabled(s, e)
    ensures C.Inv(suite, C.Step(suite, s, e))
  {
    C.RunKeepsInv(suite, s, [e]);
    assert C.Run(suite, s, [e]) == C.Step(suite, s, e) by {
      assert [e][1..] == [];
    }
  }

  lemma {:induction false} StepKeepsInv(suite: K.Suite, s: State, e: Event)
    requires Inv(suite, s) && Enabled(s, e)
    ensures Inv(suite, Step(suite, s, e))
  {
    match e
    case Reg(r) => R.StepKeepsInv(s.reg, r);
    case Con(c) => ConnStep(suite, s.con, c);
  }

  lemma {:induction false} RunKeepsInv(suite: K.Suite, s: State, events: seq<Event>)
    requires Inv(suite, s) && Legal(suite, s, events)
    ensures Inv(suite, Run(suite, s, events))
    decreases |events|
  {
    if events != [] {
      StepKeepsInv(suite, s, events[0]);
      RunKeepsInv(suite, Step(suite, s, events[0]), events[1..]);
    }
  }

  /** At some point of the run the registry held the room for exactly these two identities. */
  predicate RegisteredIn(suite: K.Suite, s: State, events: seq<Event>, room: C.RoomId, fps: set<C.Fp>)
    requires Legal(suite, s, events)
    decreases |events|
  {
    || (room in s.reg.mem && R.ValidMembers(s.reg.mem[room].first, s.reg.mem[room].second)
        && fps == {s.reg.mem[room].first, s.reg.mem[room].second})
    || (events != [] && RegisteredIn(suite, Step(suite, s, events[0]), events[1..], room, fps))
  }

  lemma {:induction false} NewAdmission(suite: K.Suite, s: State, e: Event, a: C.Admission)
    requires Enabled(s, e) && a in Step(suite, s, e).con.admitted && a !in s.con.admitted
    ensures a.members != {} && a.members == MembersOf(s.reg, a.room)
  {
    var c := e.c;
    C.AdmitsMember(suite, s.con, c.c, c.frame, c.env);
    var added := Step(suite, s, e).con.admitted;
    assert added == added[..|s.con.admitted|] + [Last(added)];
  }

  lemma {:induction false} AdmittedWereRegistered(suite: K.Suite, s: State, events: seq<Event>, a: C.Admission)
    requires Inv(suite, s) && Legal(suite, s, events) && a in Run(suite, s, events).con.admitted
    ensures a in s.con.admitted || RegisteredIn(suite, s, events, a.room, a.members)
    decreases |events|
  {
    if events != [] {
      var s' := Step(suite, s, events[0]);
      StepKeepsInv(suite, s, events[0]);
      AdmittedWereRegistered(suite, s', events[1..], a);
      if a in s'.con.admitted && a !in s.con.admitted {
        NewAdmission(suite, s, events[0], a);
      }
    }
  }

  /** Over every run of the registry and all connections together: a clip that reaches a room was sent by one of the
      two distinct identities the registry held the room for when the connection joined. */
  lemma {:induction false} ClipsComeFromRegisteredPair(suite: K.Suite, s: State, events: seq<Event>, f: C.Forward)
    requires R.Init(s.reg) && C.Init(s.con) && Legal(suite, s, events) && f in Run(suite, s, events).con.forwarded
    ensures exists a :: a in Run(suite, s, events).con.admitted && a.conn == f.conn && a.room == f.room && a.fp == f.fp
                        && f.fp in a.members && RegisteredIn(suite, s, events, f.room, a.members)
  {
    RunKeepsInv(suite, s, events);
    var con := Run(suite, s, events).con;
    assert C.AdmittedAs(con, f.conn, f.room, f.fp);
    var i :| 0 <= i < |con.admitted| && con.admitted[i].conn == f.conn && con.admitted[i].room == f.room
        && con.admitted[i].fp == f.fp;
    assert con.admitted[i] in con.admitted;
    AdmittedWereRegistered(suite, s, events, con.admitted[i]);
  }

  // ---- The other direction ----

  function AsCons(cons: seq<C.Event>): (events: seq<Event>)
    ensures |events| == |cons|
  {
    seq(|cons|, i requires 0 <= i < |cons| => Con(cons[i]))
  }

  /** Joins are answered with what the registry holds. */
  predicate AnsweredFrom(reg: R.State, cons: seq<C.Event>)
  {
    forall e :: e in cons && e.Receive? && e.frame.Join? ==> e.env.members == MembersOf(reg, e.frame.room)
  }

  lemma {:induction false} ConnectionsAlone(suite: K.Suite, s: State, cons: seq<C.Event>)
    requires s.reg.up && C.Legal(suite, s.con, cons) && AnsweredFrom(s.reg, cons)
    ensures Legal(suite, s, AsCons(cons))
    ensures Run(suite, s, AsCons(cons)) == State(s.reg, C.Run(suite, s.con, cons))
    decreases |cons|
  {
    if cons != [] {
      var e, s' := Con(cons[0]), State(s.reg, C.Step(suite, s.con, cons[0]));
      assert cons[0] in cons && AsCons(cons)[0] == e && AsCons(cons)[1..] == AsCons(cons[1..]);
      ConnectionsAlone(suite, s', cons[1..]);
      assert Enabled(s, e) && Step(suite, s, e) == s';
    }
  }

  /** Either of the two identities the registry holds a room for gets in and is heard: whatever went on before, it
      connects, greets, signs its challenge, joins within its budget and sends a clip, and the clip is forwarded to that
      room under its own identity. */
  lemma {:induction false} RegisteredMemberIsHeard(suite: K.Suite, s: State, c: C.ConnId, bundle: K.Bundle,
                                                   room: C.RoomId, hello: C.Env, join: C.Env, clip: C.Env)
    requires s.reg.up && room in s.reg.mem && join.members == {s.reg.mem[room].first, s.reg.mem[room].second}
    requires K.Fingerprint(suite, bundle) in [s.reg.mem[room].first, s.reg.mem[room].second]
    requires c !in s.con.phases && hello.sent && join.allowed && join.routed && clip.routed
    requires hello.nonce !in s.con.issued && join.nonce !in s.con.issued + {hello.nonce}
             && clip.nonce !in s.con.issued + {hello.nonce}
    requires K.Encodable([hello.nonce, room, C.DeviceId(suite, bundle.sign), bundle.sign + bundle.dh])
    ensures var device := C.DeviceId(suite, bundle.sign);
            var message := K.JOIN_DOMAIN + K.Prefixed([hello.nonce, room, device, bundle.sign + bundle.dh]);
            var greet, sign := C.Frame.Hello(device, bundle),
                               C.Frame.Join(room, device, bundle, Some(C.Signature(bundle.sign, message)));
            var events := AsCons([C.Open(c), C.Receive(c, greet, hello), C.Receive(c, sign, join),
                                  C.Receive(c, C.Frame.Clip(room), clip)]);
            && Legal(suite, s, events)
            && Run(suite, s, events).con.forwarded
               == s.con.forwarded + [C.Forward(c, room, K.Fingerprint(suite, bundle))]
  {
    C.HonestMemberIsHeard(suite, s.con, c, bundle, room, hello, join, clip);
    var device := C.DeviceId(suite, bundle.sign);
    var message := K.JOIN_DOMAIN + K.Prefixed([hello.nonce, room, device, bundle.sign + bundle.dh]);
    var greet, sign := C.Frame.Hello(device, bundle),
                       C.Frame.Join(room, device, bundle, Some(C.Signature(bundle.sign, message)));
    ConnectionsAlone(suite, s, [C.Open(c), C.Receive(c, greet, hello), C.Receive(c, sign, join),
                                C.Receive(c, C.Frame.Clip(room), clip)]);
  }
}
