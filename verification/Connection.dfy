/** The relay's side of all websocket connections: hello and challenge, pairing frames, the authenticated join,
    then clips. Signatures are ideal: one verifies only for the key and the message it was made for. Nonces are
    drawn fresh. */
module Connection {
  import opened Prelude
  import C = Crypto

  type ConnId = nat
  type RoomId = Bytes
  type Fp = Bytes

  datatype Signature = Signature(key: Bytes, message: Bytes)

  datatype Frame =
    | Hello(device: Bytes, bundle: C.Bundle)
    | Pair
    | Join(room: RoomId, device: Bytes, bundle: C.Bundle, sig: Option<Signature>)
    | Clip(room: RoomId)
    | Other

  datatype Phase = PreHello | Ready(nonce: Option<Bytes>, bundle: C.Bundle) | Joined(room: RoomId, fp: Fp) | Closed

  /** A join handed to a room actor, with the registry's answer for the room, and a clip handed on. */
  datatype Admission = Admission(conn: ConnId, nonce: Bytes, room: RoomId, fp: Fp, sig: Signature, members: set<Fp>)
  datatype Forward = Forward(conn: ConnId, room: RoomId, fp: Fp)

  datatype State = State(phases: map<ConnId, Phase>, issued: set<Bytes>, admitted: seq<Admission>,
                         forwarded: seq<Forward>)

  /** What the rest of the relay answers: fresh nonce, outbox space, pairing handler, rate limiter, the
      registry's members of the room, room inbox. */
  datatype Env = Env(nonce: Bytes, sent: bool, paired: bool, allowed: bool, members: set<Fp>, routed: bool)

  datatype Event = Open(c: ConnId) | Receive(c: ConnId, frame: Frame, env: Env) | Hangup(c: ConnId)

  function DeviceId(suite: C.Suite, key: Bytes): (id: Bytes)
  {
    var digest := suite.hash(key);
    C.Hex(if |digest| >= 8 then digest[..8] else digest)
  }

  function JoinMessage(nonce: Bytes, room: RoomId, device: Bytes, bundle: C.Bundle): (message: Option<Bytes>)
  {
    var fields := [nonce, room, device, C.BundleBytes(bundle)];
    if C.Encodable(fields) then Some(C.JOIN_DOMAIN + C.Prefixed(fields)) else None
  }

  /** Challenge, attempt budget, signature, device id, membership, room inbox, in this order. */
  predicate Authentic(suite: C.Suite, nonce: Option<Bytes>, f: Frame, env: Env)
    requires f.Join?
  {
    && nonce.Some? && env.allowed && f.sig.Some?
    && JoinMessage(nonce.value, f.room, f.device, f.bundle) == Some(f.sig.value.message)
    && f.sig.value.key == f.bundle.sign
    && DeviceId(suite, f.bundle.sign) == f.device
    && C.Fingerprint(suite, f.bundle) in env.members
    && env.routed
  }

  function OnFrame(suite: C.Suite, s: State, c: ConnId, frame: Frame, env: Env): (s': State)
    requires c in s.phases
  {
    match (s.phases[c], frame)
    case (PreHello, Hello(device, bundle)) =>
      if DeviceId(suite, bundle.sign) != device then s.(phases := s.phases[c := Closed])
      else if !env.sent then s.(phases := s.phases[c := Closed], issued := s.issued + {env.nonce})
      else s.(phases := s.phases[c := Ready(Some(env.nonce), bundle)], issued := s.issued + {env.nonce})
    case (Ready(_, _), Pair) => if env.paired then s else s.(phases := s.phases[c := Closed])
    case (Ready(nonce, _), Join(room, _, bundle, sig)) =>
      if Authentic(suite, nonce, frame, env) then
        var fp := C.Fingerprint(suite, bundle);
        s.(phases := s.phases[c := Joined(room, fp)],
           admitted := s.admitted + [Admission(c, nonce.value, room, fp, sig.value, env.members)])
      else s.(phases := s.phases[c := Closed])
    case (Joined(joined, fp), Clip(room)) =>
      if room != joined then s.(phases := s.phases[c := Closed])
      else if !env.routed then s.(phases := s.phases[c := Closed])
      else s.(forwarded := s.forwarded + [Forward(c, joined, fp)])
    case (_, _) => s.(phases := s.phases[c := Closed])
  }

  /** A frame adds at most one admission: of a member, as the registry answered for the room it asked for. */
  lemma {:induction false} AdmitsMember(suite: C.Suite, s: State, c: ConnId, frame: Frame, env: Env)
    requires c in s.phases
    ensures var added := OnFrame(suite, s, c, frame, env).admitted;
            || added == s.admitted
            || (frame.Join? && |added| == |s.admitted| + 1 && added[..|s.admitted|] == s.admitted
                && Last(added).room == frame.room && Last(added).members == env.members
                && Last(added).fp in env.members)
  {
  }

  /** Frames are read while the connection is open; a nonce has never been drawn before. */
  predicate Enabled(s: State, e: Event)
  {
    match e
    case Open(c) => c !in s.phases
    case Receive(c, _, env) => c in s.phases && !s.phases[c].Closed? && env.nonce !in s.issued
    case Hangup(c) => c in s.phases
  }

  function Step(suite: C.Suite, s: State, e: Event): (s': State)
    requires Enabled(s, e)
  {
    match e
    case Open(c) => s.(phases := s.phases[c := PreHello])
    case Receive(c, frame, env) => OnFrame(suite, s, c, frame, env)
    case Hangup(c) => s.(phases := s.phases[c := Closed])
  }

  predicate Legal(suite: C.Suite, s: State, events: seq<Event>)
    decreases |events|
  {
    events == [] || (Enabled(s, events[0]) && Legal(suite, Step(suite, s, events[0]), events[1..]))
  }

  function Run(suite: C.Suite, s: State, events: seq<Event>): (s': State)
    requires Legal(suite, s, events)
    decreases |events|
  {
    if events == [] then s else Run(suite, Step(suite, s, events[0]), events[1..])
  }

  predicate Init(s: State)
  {
    s == State(map[], {}, [], [])
  }

  // ---- Invariants ----

  /** The challenge this connection still has to answer. */
  predicate Challenged(p: Phase, nonce: Bytes)
  {
    p.Ready? && p.nonce == Some(nonce)
  }

  /** Open challenges are issued nonces, one per connection, and none has been answered. */
  ghost predicate NoncesInv(s: State)
  {
    && (forall c, n :: c in s.phases && Challenged(s.phases[c], n) ==> n in s.issued)
    && (forall c, d, n ::
          c in s.phases && d in s.phases && Challenged(s.phases[c], n) && Challenged(s.phases[d], n) ==> c == d)
    && (forall i :: 0 <= i < |s.admitted| ==> s.admitted[i].nonce in s.issued)
    && (forall c, i :: c in s.phases && 0 <= i < |s.admitted| ==> !Challenged(s.phases[c], s.admitted[i].nonce))
    && (forall i, j :: 0 <= i < j < |s.admitted| ==> s.admitted[i].nonce != s.admitted[j].nonce)
  }

  /** A connection is admitted once and has then left the stages before joining for good. */
  predicate AdmittedInv(s: State)
  {
    && (forall i :: 0 <= i < |s.admitted| ==>
          && s.admitted[i].conn in s.phases
          && (s.phases[s.admitted[i].conn].Joined? || s.phases[s.admitted[i].conn].Closed?))
    && (forall i, j :: 0 <= i < j < |s.admitted| ==> s.admitted[i].conn != s.admitted[j].conn)
    && (forall c :: c in s.phases && s.phases[c].Joined? ==> AdmittedAs(s, c, s.phases[c].room, s.phases[c].fp))
  }

  predicate AdmittedAs(s: State, c: ConnId, room: RoomId, fp: Fp)
  {
    exists i :: 0 <= i < |s.admitted| && s.admitted[i].conn == c && s.admitted[i].room == room && s.admitted[i].fp == fp
  }

  predicate ForwardedInv(s: State)
  {
    forall f :: f in s.forwarded ==> AdmittedAs(s, f.conn, f.room, f.fp)
  }

  /** Every admission is of a member of the room, as the registry answered, and carries a signature made with a key
      behind the fingerprint, over this nonce and room. */
  ghost predicate SignedInv(suite: C.Suite, s: State)
  {
    forall i :: 0 <= i < |s.admitted| ==> SignedFor(suite, s.admitted[i]) && s.admitted[i].fp in s.admitted[i].members
  }

  predicate SignedBy(suite: C.Suite, a: Admission, bundle: C.Bundle)
  {
    && C.Fingerprint(suite, bundle) == a.fp && a.sig.key == bundle.sign
    && JoinMessage(a.nonce, a.room, DeviceId(suite, bundle.sign), bundle) == Some(a.sig.message)
  }

  ghost predicate SignedFor(suite: C.Suite, a: Admission)
  {
    exists bundle :: SignedBy(suite, a, bundle)
  }

  ghost predicate Inv(suite: C.Suite, s: State)
  {
    NoncesInv(s) && AdmittedInv(s) && ForwardedInv(s) && SignedInv(suite, s)
  }

  lemma {:induction false} AdmitKeepsNonces(s: State, s': State, a: Admission, p: Phase)
    requires NoncesInv(s) && a.conn in s.phases && Challenged(s.phases[a.conn], a.nonce) && !p.Ready?
    requires s'.phases == s.phases[a.conn := p] && s'.admitted == s.admitted + [a] && s'.issued == s.issued
    ensures NoncesInv(s')
  {
  }

  lemma {:induction false} AdmitKeepsAdmitted(s: State, s': State, a: Admission)
    requires AdmittedInv(s) && a.conn in s.phases && s.phases[a.conn].Ready?
    requires s'.phases == s.phases[a.conn := Joined(a.room, a.fp)] && s'.admitted == s.admitted + [a]
    ensures AdmittedInv(s')
  {
    assert s'.admitted[|s.admitted|] == a;
    assert AdmittedAs(s', a.conn, a.room, a.fp);
    forall d | d in s'.phases && s'.phases[d].Joined? && d != a.conn
      ensures AdmittedAs(s', d, s'.phases[d].room, s'.phases[d].fp)
    {
      MoreAdmitted(s, s', d, s.phases[d].room, s.phases[d].fp);
    }
  }

  lemma {:induction false} MoreAdmitted(s: State, s': State, c: ConnId, room: RoomId, fp: Fp)
    requires s.admitted <= s'.admitted && AdmittedAs(s, c, room, fp)
    ensures AdmittedAs(s', c, room, fp)
  {
  }

  lemma {:induction false} MoreForwarded(s: State, s': State)
    requires ForwardedInv(s) && s.admitted <= s'.admitted && s'.forwarded == s.forwarded
    ensures ForwardedInv(s')
  {
  }

  /** A connection moves to a phase without an open challenge, or with a freshly drawn one. */
  lemma {:induction false} PhaseKeepsNonces(s: State, s': State, c: ConnId, p: Phase)
    requires NoncesInv(s) && s'.phases == s.phases[c := p] && s'.admitted == s.admitted && s.issued <= s'.issued
    requires p.Ready? && p.nonce.Some? ==> p.nonce.value !in s.issued && p.nonce.value in s'.issued
    ensures NoncesInv(s')
  {
    forall d, n | d in s'.phases && Challenged(s'.phases[d], n)
      ensures n in s'.issued && (d != c ==> d in s.phases && Challenged(s.phases[d], n))
    {
    }
  }

  lemma {:induction false} PhaseKeepsAdmitted(s: State, s': State, c: ConnId, p: Phase)
    requires AdmittedInv(s) && s'.phases == s.phases[c := p] && s'.admitted == s.admitted
    requires !p.Joined? && (p.Closed? || c !in s.phases || (!s.phases[c].Joined? && !s.phases[c].Closed?))
    ensures AdmittedInv(s')
  {
    assert forall d, r, f :: AdmittedAs(s, d, r, f) ==> AdmittedAs(s', d, r, f);
  }

  lemma {:induction false} PhaseKeepsInv(suite: C.Suite, s: State, s': State, c: ConnId, p: Phase)
    requires Inv(suite, s) && s'.phases == s.phases[c := p] && s'.admitted == s.admitted && s.issued <= s'.issued
    requires s'.forwarded == s.forwarded && !p.Joined?
    requires p.Closed? || c !in s.phases || (!s.phases[c].Joined? && !s.phases[c].Closed?)
    requires p.Ready? && p.nonce.Some? ==> p.nonce.value !in s.issued && p.nonce.value in s'.issued
    ensures Inv(suite, s')
  {
    PhaseKeepsNonces(s, s', c, p);
    PhaseKeepsAdmitted(s, s', c, p);
    MoreForwarded(s, s');
  }

  lemma {:induction false} AdmitKeepsInv(suite: C.Suite, s: State, c: ConnId, frame: Frame, env: Env)
    requires Inv(suite, s) && c in s.phases && s.phases[c].Ready? && frame.Join?
             && Authentic(suite, s.phases[c].nonce, frame, env)
    ensures Inv(suite, OnFrame(suite, s, c, frame, env))
  {
    var s' := OnFrame(suite, s, c, frame, env);
    var a := Last(s'.admitted);
    AdmitKeepsNonces(s, s', a, s'.phases[c]);
    AdmitKeepsAdmitted(s, s', a);
    MoreForwarded(s, s');
    assert SignedBy(suite, a, frame.bundle);
  }

  /** Forwarding a clip of an admitted connection touches the log of forwarded clips only. */
  lemma {:induction false} ForwardKeepsForwarded(s: State, s': State, f: Forward)
    requires ForwardedInv(s) && AdmittedAs(s, f.conn, f.room, f.fp)
    requires s'.admitted == s.admitted && s'.forwarded == s.forwarded + [f]
    ensures ForwardedInv(s')
  {
    forall g | g in s'.forwarded
      ensures AdmittedAs(s', g.conn, g.room, g.fp)
    {
      MoreAdmitted(s, s', g.conn, g.room, g.fp);
    }
  }

  lemma {:induction false} SameLogsKeepRest(suite: C.Suite, s: State, s': State)
    requires NoncesInv(s) && AdmittedInv(s) && SignedInv(suite, s)
    requires s' == s.(forwarded := s'.forwarded)
    ensures NoncesInv(s') && AdmittedInv(s') && SignedInv(suite, s')
  {
    assert forall c, room, fp :: AdmittedAs(s, c, room, fp) ==> AdmittedAs(s', c, room, fp);
  }

  lemma {:induction false} ForwardKeepsInv(suite: C.Suite, s: State, c: ConnId, frame: Frame, env: Env)
    requires Inv(suite, s) && c in s.phases && s.phases[c].Joined? && frame.Clip?
             && frame.room == s.phases[c].room && env.routed
    ensures Inv(suite, OnFrame(suite, s, c, frame, env))
  {
    var s' := OnFrame(suite, s, c, frame, env);
    ForwardKeepsForwarded(s, s', Forward(c, s.phases[c].room, s.phases[c].fp));
    SameLogsKeepRest(suite, s, s');
  }

  lemma {:induction false} FrameKeepsInv(suite: C.Suite, s: State, c: ConnId, frame: Frame, env: Env)
    requires Inv(suite, s) && Enabled(s, Receive(c, frame, env))
    ensures Inv(suite, OnFrame(suite, s, c, frame, env))
  {
    var p, s' := s.phases[c], OnFrame(suite, s, c, frame, env);
    if p.Ready? && frame.Join? && Authentic(suite, p.nonce, frame, env) {
      AdmitKeepsInv(suite, s, c, frame, env);
    } else if p.Joined? && frame.Clip? && frame.room == p.room && env.routed {
      ForwardKeepsInv(suite, s, c, frame, env);
    } else if !(p.Ready? && frame.Pair? && env.paired) {
      PhaseKeepsInv(suite, s, s', c, s'.phases[c]);
    }
  }

  lemma {:induction false} RunKeepsInv(suite: C.Suite, s: State, events: seq<Event>)
    requires Inv(suite, s) && Legal(suite, s, events)
    ensures Inv(suite, Run(suite, s, events))
    decreases |events|
  {
    if events != [] {
      var e, s' := events[0], Step(suite, s, events[0]);
      if e.Receive? {
        FrameKeepsInv(suite, s, e.c, e.frame, e.env);
      } else {
        PhaseKeepsInv(suite, s, s', e.c, s'.phases[e.c]);
      }
      RunKeepsInv(suite, s', events[1..]);
    }
  }

  // ---- Theorems ----

  lemma {:induction false} SameSignatureSameNonce(suite: C.Suite, a: Admission, b: Admission)
    requires SignedFor(suite, a) && SignedFor(suite, b) && a.sig == b.sig
    ensures a.nonce == b.nonce && a.room == b.room
  {
    var x :| SignedBy(suite, a, x);
    var y :| SignedBy(suite, b, y);
    C.JoinMessageInjective(a.nonce, a.room, DeviceId(suite, x.sign), C.BundleBytes(x),
                           b.nonce, b.room, DeviceId(suite, y.sign), C.BundleBytes(y));
  }

  /** Over any run of all connections together: each connection joins at most once, each challenge is answered
      at most once, and a signature gets its maker into a room at most once, however often it is presented. */
  lemma {:induction false} JoinsAreNotReplayed(suite: C.Suite, s: State, events: seq<Event>, i: nat, j: nat)
    requires Init(s) && Legal(suite, s, events) && i < j < |Run(suite, s, events).admitted|
    ensures var a := Run(suite, s, events).admitted;
            a[i].conn != a[j].conn && a[i].nonce != a[j].nonce && a[i].sig != a[j].sig
  {
    RunKeepsInv(suite, s, events);
    var a := Run(suite, s, events).admitted;
    if a[i].sig == a[j].sig {
      SameSignatureSameNonce(suite, a[i], a[j]);
    }
  }

  /** Every clip that reaches a room came over a connection admitted to that room as that identity, which the
      registry named as a member, with a signature by the identity's key over that connection's own nonce and that
      room. */
  lemma {:induction false} ClipsComeFromMembers(suite: C.Suite, s: State, events: seq<Event>, f: Forward)
    requires Init(s) && Legal(suite, s, events) && f in Run(suite, s, events).forwarded
    ensures exists a :: a in Run(suite, s, events).admitted
                        && a.conn == f.conn && a.room == f.room && a.fp == f.fp && a.fp in a.members
                        && SignedFor(suite, a)
  {
    RunKeepsInv(suite, s, events);
    var s' := Run(suite, s, events);
    assert AdmittedAs(s', f.conn, f.room, f.fp);
    var i :| 0 <= i < |s'.admitted| && s'.admitted[i].conn == f.conn && s'.admitted[i].room == f.room
        && s'.admitted[i].fp == f.fp;
    assert s'.admitted[i] in s'.admitted;
  }

  // ---- What each frame does ----

  /** A device id is sixteen lower-case hex digits and decodes to the first eight bytes of the signing key's hash. */
  lemma {:induction false} DeviceIdExactly(suite: C.Suite, key: Bytes)
    requires C.Sound(suite)
    ensures C.IsHex(DeviceId(suite, key), 16)
    ensures C.Unhex(DeviceId(suite, key)) == seq(8, i requires 0 <= i < 8 => suite.hash(key)[i] as int)
  {
    C.HexRoundTrip(suite.hash(key)[..8]);
  }

  /** The first frame must be a hello whose device id is that of its signing key; it is answered with the nonce drawn
      for this connection. Anything else closes the connection. */
  lemma {:induction false} HelloExactly(suite: C.Suite, s: State, c: ConnId, frame: Frame, env: Env)
    requires c in s.phases && s.phases[c].PreHello?
    ensures var known := frame.Hello? && frame.device == DeviceId(suite, frame.bundle.sign);
            OnFrame(suite, s, c, frame, env)
            == s.(phases := s.phases[c := if known && env.sent then Ready(Some(env.nonce), frame.bundle) else Closed],
                  issued := if known then s.issued + {env.nonce} else s.issued)
  {
  }

  /** A device that has greeted is admitted exactly for a join within its attempt budget that carries its own signature
      over the challenge it was given, the room, its device id and its keys, for a room the registry names it a member
      of and whose actor takes the join. Any other join closes the connection. */
  lemma {:induction false} JoinExactly(suite: C.Suite, s: State, c: ConnId, nonce: Bytes, hello: C.Bundle, frame: Frame,
                                       env: Env)
    requires c in s.phases && s.phases[c] == Ready(Some(nonce), hello) && frame.Join?
    ensures var fields := [nonce, frame.room, frame.device, frame.bundle.sign + frame.bundle.dh];
            var fp := C.Fingerprint(suite, frame.bundle);
            var signed := C.Encodable(fields)
                          && frame.sig == Some(Signature(frame.bundle.sign, C.JOIN_DOMAIN + C.Prefixed(fields)));
            var admitted := env.allowed && signed && frame.device == DeviceId(suite, frame.bundle.sign)
                            && fp in env.members && env.routed;
            var s' := OnFrame(suite, s, c, frame, env);
            && (admitted ==>
                  s' == s.(phases := s.phases[c := Joined(frame.room, fp)],
                           admitted := s.admitted
                                       + [Admission(c, nonce, frame.room, fp, frame.sig.value, env.members)]))
            && (!admitted ==> s' == s.(phases := s.phases[c := Closed]))
  {
  }

  /** A device that has greeted stays only by pairing frames the pairing handler takes, and by joining. */
  lemma {:induction false} ReadyExactly(suite: C.Suite, s: State, c: ConnId, frame: Frame, env: Env)
    requires c in s.phases && s.phases[c].Ready? && (!frame.Join? || s.phases[c].nonce.None?)
    ensures OnFrame(suite, s, c, frame, env) == if frame.Pair? && env.paired then s
                                                else s.(phases := s.phases[c := Closed])
  {
  }

  /** A joined device's clip goes to the room it joined, as the identity it joined with, exactly if it names that room
      and the room's actor takes it; any other frame closes the connection. */
  lemma {:induction false} ClipExactly(suite: C.Suite, s: State, c: ConnId, frame: Frame, env: Env)
    requires c in s.phases && s.phases[c].Joined?
    ensures var p := s.phases[c];
            OnFrame(suite, s, c, frame, env) == if frame == Clip(p.room) && env.routed
                                                then s.(forwarded := s.forwarded + [Forward(c, p.room, p.fp)])
                                                else s.(phases := s.phases[c := Closed])
  {
  }

  /** An open connection can always be hung up on, which closes it for good and touches no other connection. */
  lemma {:induction false} HangupExactly(suite: C.Suite, s: State, c: ConnId, frame: Frame, env: Env)
    requires c in s.phases
    ensures Enabled(s, Hangup(c)) && Step(suite, s, Hangup(c)) == s.(phases := s.phases[c := Closed])
    ensures !Enabled(Step(suite, s, Hangup(c)), Receive(c, frame, env))
    ensures !Enabled(Step(suite, s, Hangup(c)), Open(c))
  {
  }

  /** Nobody is locked out: from any state, a member who connects, greets, signs the challenge it gets and joins, and
      then sends a clip, has that clip forwarded to its room under its own identity. */
  lemma {:induction false} HonestMemberIsHeard(suite: C.Suite, s: State, c: ConnId, bundle: C.Bundle, room: RoomId,
                                               hello: Env, join: Env, clip: Env)
    requires c !in s.phases && hello.sent && join.allowed && join.routed && clip.routed
    requires hello.nonce !in s.issued && join.nonce !in s.issued + {hello.nonce}
             && clip.nonce !in s.issued + {hello.nonce}
    requires var device := DeviceId(suite, bundle.sign);
             C.Encodable([hello.nonce, room, device, bundle.sign + bundle.dh])
    requires C.Fingerprint(suite, bundle) in join.members
    ensures var device := DeviceId(suite, bundle.sign);
            var message := C.JOIN_DOMAIN + C.Prefixed([hello.nonce, room, device, bundle.sign + bundle.dh]);
            var greet, sign := Frame.Hello(device, bundle),
                               Frame.Join(room, device, bundle, Some(Signature(bundle.sign, message)));
            var events := [Open(c), Receive(c, greet, hello), Receive(c, sign, join),
                           Receive(c, Frame.Clip(room), clip)];
            && Legal(suite, s, events)
            && Run(suite, s, events).forwarded
               == s.forwarded + [Forward(c, room, C.Fingerprint(suite, bundle))]
  {
    var device := DeviceId(suite, bundle.sign);
    var message := C.JOIN_DOMAIN + C.Prefixed([hello.nonce, room, device, bundle.sign + bundle.dh]);
    var a, b := Open(c), Receive(c, Frame.Hello(device, bundle), hello);
    var d := Receive(c, Frame.Join(room, device, bundle, Some(Signature(bundle.sign, message))), join);
    var e := Receive(c, Frame.Clip(room), clip);
    var s1 := Step(suite, s, a);
    HelloExactly(suite, s1, c, b.frame, hello);
    var s2 := Step(suite, s1, b);
    JoinExactly(suite, s2, c, hello.nonce, bundle, d.frame, join);
    var s3 := Step(suite, s2, d);
    ClipExactly(suite, s3, c, e.frame, clip);
    FourSteps(suite, s, a, b, d, e);
  }

  lemma {:induction false} FourSteps(suite: C.Suite, s: State, a: Event, b: Event, d: Event, e: Event)
    requires Enabled(s, a)
    requires var s1 := Step(suite, s, a); Enabled(s1, b)
    requires var s2 := Step(suite, Step(suite, s, a), b); Enabled(s2, d) && Enabled(Step(suite, s2, d), e)
    ensures Legal(suite, s, [a, b, d, e])
    ensures Run(suite, s, [a, b, d, e])
            == Step(suite, Step(suite, Step(suite, Step(suite, s, a), b), d), e)
  {
    var s1 := Step(suite, s, a);
    var s2 := Step(suite, s1, b);
    var s3 := Step(suite, s2, d);
    var s4 := Step(suite, s3, e);
    assert Legal(suite, s4, []) && Run(suite, s4, []) == s4;
    assert [e][1..] == [] && Legal(suite, s3, [e]) && Run(suite, s3, [e]) == s4;
    assert [d, e][1..] == [e] && Legal(suite, s2, [d, e]) && Run(suite, s2, [d, e]) == s4;
    assert [b, d, e][1..] == [d, e] && Legal(suite, s1, [b, d, e]) && Run(suite, s1, [b, d, e]) == s4;
    assert [a, b, d, e][1..] == [b, d, e];
  }

  /** One connection as the program runs it. */
  class ClientConnection {
    const id: ConnId
    var phase: Phase
    ghost var view: State

    ghost predicate Current()
      reads this
    {
      id in view.phases && view.phases[id] == phase
    }

    /** Takes the challenge, whatever comes of it, and checks the join step by step. */
    method HandleJoin(suite: C.Suite, frame: Frame, env: Env) returns (fp: Option<Fp>, nonce: Option<Bytes>)
      requires frame.Join? && phase.Ready?
      modifies this`phase
      ensures nonce == old(phase).nonce && phase == old(phase).(nonce := None)
      ensures fp.Some? <==> Authentic(suite, nonce, frame, env)
      ensures fp.Some? ==> fp.value == C.Fingerprint(suite, frame.bundle)
    {
      nonce := phase.nonce;
      phase := phase.(nonce := None);
      fp := None;
      if nonce.None? || !env.allowed || frame.sig.None? {
        return;
      }
      var message := C.JoinSigMsg(nonce.value, frame.room, frame.device, C.BundleBytes(frame.bundle));
      if message.None? || frame.sig.value != Signature(frame.bundle.sign, message.value) {
        return;
      }
      if DeviceId(suite, frame.bundle.sign) != frame.device {
        return;
      }
      var own := C.Fingerprint(suite, frame.bundle);
      if own !in env.members || !env.routed {
        return;
      }
      fp := Some(own);
    }

    method TakeFrame(suite: C.Suite, frame: Frame, env: Env)
      requires Current() && !phase.Closed?
      modifies this
      ensures Current() && view == OnFrame(suite, old(view), id, frame, env)
    {
      view := OnFrame(suite, view, id, frame, env);
      match phase {
        case PreHello =>
          if frame.Hello? && DeviceId(suite, frame.bundle.sign) == frame.device && env.sent {
            phase := Ready(Some(env.nonce), frame.bundle);
          } else {
            phase := Closed;
          }
        case Ready(_, _) =>
          if frame.Pair? {
            if !env.paired {
              phase := Closed;
            }
          } else if frame.Join? {
            var fp, nonce := HandleJoin(suite, frame, env);
            phase := if fp.Some? then Joined(frame.room, fp.value) else Closed;
          } else {
            phase := Closed;
          }
        case Joined(room, fp) =>
          if !frame.Clip? || frame.room != room || !env.routed {
            phase := Closed;
          }
      }
    }
  }
}
