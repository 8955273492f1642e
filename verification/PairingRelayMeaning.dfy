/** What the relay's pairing events leave behind, and how many attempts an address gets over whole runs. */
module PairingRelayMeaning {
  import opened Prelude
  import opened PairingRelay
  import C = Crypto
  import R = Registry
  import O = Outbox
  import L = RateLimit

  // ---- What events leave ----

  /** The offers that have not expired. */
  ghost predicate IsUnexpiredPart(offers: map<Code, Offer>, part: map<Code, Offer>, now: int)
  {
    forall x :: (x in part <==> x in offers && now < offers[x].expires) && (x in part ==> part[x] == offers[x])
  }

  /** An offer that is over budget, malformed or not of the introduced identity is only counted as an attempt. */
  lemma {:induction false} RefusedAtOnceLeaves(cfg: Config, s: State, ctx: Context, code: Code, bundle: C.Bundle)
    requires Enabled(cfg, s, MakeOffer(ctx, code, bundle))
    requires var reply := HandleOffer(cfg, s, ctx, code, bundle).1;
             reply.RateLimited? || reply.BadCode? || reply.BadAuth?
    ensures var s' := HandleOffer(cfg, s, ctx, code, bundle).0; s' == s.(rates := s'.rates)
  {
  }

  /** One refused for its code being taken, for lack of room or for its connection being gone also has the expired
      offers dropped. */
  lemma {:induction false} RefusedInTurnLeaves(cfg: Config, s: State, ctx: Context, code: Code, bundle: C.Bundle)
    requires Enabled(cfg, s, MakeOffer(ctx, code, bundle))
    requires var reply := HandleOffer(cfg, s, ctx, code, bundle).1;
             reply.CodeInUse? || reply.ServerFull? || (reply.PeerUnavailable? && ctx.conn !in s.connected)
    ensures var s' := HandleOffer(cfg, s, ctx, code, bundle).0;
            s' == s.(offers := s'.offers, rates := s'.rates) && IsUnexpiredPart(s.offers, s'.offers, ctx.now)
  {
  }

  /** And one whose confirmation does not fit the outbox keeps its code taken, dead on arrival, until it expires. */
  lemma {:induction false} RefusedLateLeaves(cfg: Config, s: State, ctx: Context, code: Code, bundle: C.Bundle)
    requires Enabled(cfg, s, MakeOffer(ctx, code, bundle)) && ctx.conn in s.connected
    requires HandleOffer(cfg, s, ctx, code, bundle).1.PeerUnavailable?
    ensures var s', fp := HandleOffer(cfg, s, ctx, code, bundle).0, C.Fingerprint(cfg.suite, bundle);
            && s' == s.(offers := s'.offers, rates := s'.rates, serials := s.serials + 1)
            && code in s'.offers
            && s'.offers[code] == Offer(s.serials, ctx.conn, bundle, fp, ctx.now + cfg.ttl, Terminal)
            && IsUnexpiredPart(s.offers, s'.offers - {code}, ctx.now)
  {
    LateRefusal(cfg, s.(rates := Charged(cfg, s, ctx)), ctx, code, bundle);
    PartWithout(s.offers, code, NewOffer(cfg, s.serials, ctx, bundle, Terminal), ctx.now);
  }

  lemma {:induction false} LateRefusal(cfg: Config, s: State, ctx: Context, code: Code, bundle: C.Bundle)
    requires ctx.conn in s.hellos && ctx.conn in s.boxes && ctx.conn in s.connected
    requires OnOffer(cfg, s, ctx, code, bundle).1.PeerUnavailable?
    ensures code !in Unexpired(s.offers, ctx.now)
    ensures var dead := NewOffer(cfg, s.serials, ctx, bundle, Terminal);
            OnOffer(cfg, s, ctx, code, bundle).0
            == s.(offers := Unexpired(s.offers, ctx.now)[code := dead], serials := s.serials + 1)
  {
    assert OfferChecked(cfg, s, ctx, code, bundle).Ok?;
  }

  lemma {:induction false} PartWithout(offers: map<Code, Offer>, code: Code, offer: Offer, now: int)
    requires code !in Unexpired(offers, now)
    ensures IsUnexpiredPart(offers, Unexpired(offers, now)[code := offer] - {code}, now)
  {
    assert Unexpired(offers, now)[code := offer] - {code} == Unexpired(offers, now);
  }

  /** A connection that says hello is connected, with an empty outbox, as the bundle it gave; a use of one outbox or of
      the registry touches nothing else; and a restart forgets everything but the registry's file. */
  lemma {:induction false} OtherEventsLeave(cfg: Config, s: State, e: Event)
    requires Enabled(cfg, s, e) && Wired(s) && FpsMatch(cfg, s)
    ensures var s' := Step(cfg, s, e);
            && (e.Hello? ==>
                  && s' == s.(hellos := s.hellos[e.c := e.hello], boxes := s'.boxes, connected := s.connected + {e.c})
                  && s'.boxes.Keys == s.boxes.Keys + {e.c} && O.Init(s'.boxes[e.c])
                  && (forall c :: c in s.boxes && c != e.c ==> s'.boxes[c] == s.boxes[c]))
            && (e.BoxStep? ==> s' == s.(boxes := s.boxes[e.c := O.Step(cfg.box, s.boxes[e.c], e.o)]))
            && (e.RegStep? ==> s' == s.(reg := R.Step(s.reg, e.r)))
            && (e.Restart? ==>
                  s' == State(map[], map[], map[], {}, map[], R.State(s.reg.disk, s.reg.disk, true), s.serials,
                              s.claims, s.notices))
  {
  }

  /** The registry is used by others for activations and prunings only. */
  lemma {:induction false} OtherRegistryUse(cfg: Config, s: State, r: R.Event)
    ensures Enabled(cfg, s, RegStep(r)) <==> r.Activate? || r.Prune?
  {
  }

  // ---- Attempts ----

  predicate IsAttempt(e: Event, ip: L.Ip)
  {
    (e.MakeOffer? || e.MakeClaim?) && e.ctx.ip == ip
  }

  function RateOf(s: State, ip: L.Ip): (r: Option<L.Rate>)
  {
    if ip in s.rates then Some(s.rates[ip]) else None
  }

  function ReplyTo(cfg: Config, s: State, e: Event): (reply: Reply)
    requires Enabled(cfg, s, e) && Wired(s) && FpsMatch(cfg, s) && (e.MakeOffer? || e.MakeClaim?)
  {
    if e.MakeOffer? then HandleOffer(cfg, s, e.ctx, e.code, e.bundle).1
    else
      ClaimableFromElsewhere(cfg, s, e.ctx, e.code, e.bundle);
      HandleClaim(cfg, s, e.ctx, e.code, e.bundle).1
  }

  /** An attempt is answered as over budget exactly if its address has none left, and is counted exactly if it has; no
      other event but a restart touches an address's count. */
  lemma {:induction false} AttemptIsCounted(cfg: Config, s: State, e: Event, ip: L.Ip)
    requires Enabled(cfg, s, e) && Wired(s) && FpsMatch(cfg, s) && !e.Restart?
    ensures IsAttempt(e, ip) ==>
              var rolls := ip !in s.rates || e.ctx.now - s.rates[ip].start >= cfg.span;
              var start, used := if rolls then e.ctx.now else s.rates[ip].start,
                                 if rolls then 0 else s.rates[ip].attempts;
              && (ReplyTo(cfg, s, e).RateLimited? <==> used >= cfg.attempts)
              && RateOf(Step(cfg, s, e), ip) == Some(L.Rate(start, if used < cfg.attempts then used + 1 else used))
    ensures !IsAttempt(e, ip) ==> RateOf(Step(cfg, s, e), ip) == RateOf(s, ip)
  {
    if e.MakeOffer? {
      OfferCharges(cfg, s, e.ctx, e.code, e.bundle);
    } else if e.MakeClaim? {
      ClaimableFromElsewhere(cfg, s, e.ctx, e.code, e.bundle);
      ClaimCharges(cfg, s, e.ctx, e.code, e.bundle);
    }
  }

  lemma {:induction false} OfferCharges(cfg: Config, s: State, ctx: Context, code: Code, bundle: C.Bundle)
    requires ctx.conn in s.hellos && ctx.conn in s.boxes
    ensures var (s', reply) := HandleOffer(cfg, s, ctx, code, bundle);
            s'.rates == Charged(cfg, s, ctx) && (reply.RateLimited? <==> !Allowed(cfg, s, ctx))
  {
  }

  lemma {:induction false} ClaimCharges(cfg: Config, s: State, ctx: Context, code: Code, bundle: C.Bundle)
    requires ctx.conn in s.hellos && (ClaimChecked(cfg, s, ctx, code, bundle).Ok? ==> CanNotify(s, ctx, code))
    ensures var (s', reply) := HandleClaim(cfg, s, ctx, code, bundle);
            s'.rates == Charged(cfg, s, ctx) && (reply.RateLimited? <==> !Allowed(cfg, s, ctx))
  {
  }

  /** The times at which an address makes attempts. */
  function TimesOf(events: seq<Event>, ip: L.Ip): (times: seq<int>)
    decreases |events|
  {
    if events == [] then []
    else (if IsAttempt(events[0], ip) then [events[0].ctx.now] else []) + TimesOf(events[1..], ip)
  }

  /** The attempts of an address in a time interval that are not answered as over budget. */
  function GrantedIn(cfg: Config, s: State, events: seq<Event>, ip: L.Ip, from: int, until: int): (n: nat)
    requires Legal(cfg, s, events)
    decreases |events|
  {
    if events == [] then 0
    else
      var e := events[0];
      (if IsAttempt(e, ip) && from <= e.ctx.now < until && !ReplyTo(cfg, s, e).RateLimited? then 1 else 0)
      + GrantedIn(cfg, Step(cfg, s, e), events[1..], ip, from, until)
  }

  predicate NeverRestarts(events: seq<Event>)
  {
    forall e :: e in events ==> !e.Restart?
  }

  lemma {:induction false} GrantedIsAdmitted(cfg: Config, s: State, events: seq<Event>, ip: L.Ip, from: int, until: int)
    requires Legal(cfg, s, events) && NeverRestarts(events)
    ensures GrantedIn(cfg, s, events, ip, from, until)
            == L.PairAdmitted(L.Limits(cfg.attempts, 0, cfg.span), RateOf(s, ip), TimesOf(events, ip), from, until)
    decreases |events|
  {
    if events != [] {
      var e, rest := events[0], TimesOf(events[1..], ip);
      assert e in events;
      AttemptIsCounted(cfg, s, e, ip);
      GrantedIsAdmitted(cfg, Step(cfg, s, e), events[1..], ip, from, until);
      if IsAttempt(e, ip) {
        assert ([e.ctx.now] + rest)[0] == e.ctx.now && ([e.ctx.now] + rest)[1..] == rest;
      } else {
        assert [] + rest == rest;
      }
    }
  }

  predicate NeverBack(times: seq<int>)
  {
    forall i, j :: 0 <= i < j < |times| ==> times[i] <= times[j]
  }

  lemma {:induction false} Bounded(l: L.Limits, r: Option<L.Rate>, times: seq<int>, from: int, granted: nat)
    requires L.ValidLimits(l) && NeverBack(times) && r.None?
    requires granted == L.PairAdmitted(l, r, times, from, from + l.span)
    ensures granted <= 2 * l.maxJoins
  {
    L.PairAttemptsBounded(l, times, from);
  }

  /** Over every run of a relay that is not restarted, with time that does not go back: whatever codes it tries, on
      however many connections, an address is granted at most twice the budget of pairing attempts in any interval as
      long as a window. */
  lemma {:induction false} AttemptsAreBounded(cfg: Config, s: State, events: seq<Event>, ip: L.Ip, from: int)
    requires Init(s) && Legal(cfg, s, events) && cfg.span >= 0 && cfg.attempts < L.U32_SIZE
    requires NeverRestarts(events) && NeverBack(TimesOf(events, ip))
    ensures GrantedIn(cfg, s, events, ip, from, from + cfg.span) <= 2 * cfg.attempts
  {
    GrantedIsAdmitted(cfg, s, events, ip, from, from + cfg.span);
    Bounded(L.Limits(cfg.attempts, 0, cfg.span), RateOf(s, ip), TimesOf(events, ip), from,
            GrantedIn(cfg, s, events, ip, from, from + cfg.span));
  }
}
