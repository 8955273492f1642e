/** One-time pairing codes at the relay: an offer is published on one connection and claimed from another;
    a claim registers the room and then notifies both connections or neither. */
module PairingRelay {
  import opened Prelude
  import C = Crypto
  import R = Registry
  import O = Outbox
  import L = RateLimit

  type ConnId = nat
  type Code = string

  const CODE_ALPHABET: string := "23456789ABCDEFGHJKMNPQRSTVWXYZ"

  predicate ValidCode(code: Code)
  {
    |code| == 6 && forall c :: c in code ==> c in CODE_ALPHABET
  }

  datatype OfferState = Preparing | Published | Claimed | Terminal

  /** `serial` numbers the offers; a code can be offered again once its earlier offer has expired. */
  datatype Offer = Offer(serial: nat, conn: ConnId, bundle: C.Bundle, fp: Bytes, expires: int, state: OfferState)

  datatype Config = Config(ttl: int, maxOffers: nat, attempts: nat, span: int, box: O.Limits, suite: C.Suite)

  /** A successful claim. */
  datatype Claim = Claim(serial: nat, offerer: ConnId, claimer: ConnId, room: Bytes, offererFp: Bytes, claimerFp: Bytes)

  /** A `PairPeer` frame enqueued on a connection, telling it the other's bundle. */
  datatype Notice = Notice(serial: nat, to: ConnId, peer: C.Bundle)

  /** `boxes` are the outboxes of all connections, `connected` those still in the connection table, `hellos`
      the bundle each connection introduced itself with. `claims` and `notices` are logs. */
  datatype State = State(
    offers: map<Code, Offer>, rates: map<L.Ip, L.Rate>, boxes: map<ConnId, O.State>, connected: set<ConnId>,
    hellos: map<ConnId, C.Bundle>, reg: R.State, serials: nat, claims: seq<Claim>, notices: seq<Notice>)

  datatype Reply = Ok | BadCode | BadAuth | CodeInUse | ServerFull | PeerUnavailable | CodeExpired | SameIdentity
                 | RegistryFailed | RateLimited

  /** Who is asking, and what the environment does meanwhile; `t` names the reservations of this call. */
  datatype Context = Context(conn: ConnId, ip: L.Ip, now: int, write: Commit, t: nat, frame: O.Unit, other: O.Unit)

  datatype Event =
    | Hello(c: ConnId, hello: C.Bundle)
    | MakeOffer(ctx: Context, code: Code, bundle: C.Bundle)
    | MakeClaim(ctx: Context, code: Code, bundle: C.Bundle)
    | Disconnect(c: ConnId)
    | BoxStep(c: ConnId, o: O.Event)
    | RegStep(r: R.Event)
    | Restart

  function Kill(offers: map<Code, Offer>, code: Code): (offers': map<Code, Offer>)
  {
    if code in offers then offers[code := offers[code].(state := Terminal)] else offers
  }

  // ---- Attempt budget ----

  predicate Allowed(cfg: Config, s: State, ctx: Context)
  {
    L.AllowsAttempt(if ctx.ip in s.rates then Some(s.rates[ctx.ip]) else None, ctx.now, cfg.span, cfg.attempts)
  }

  function Charged(cfg: Config, s: State, ctx: Context): (rates: map<L.Ip, L.Rate>)
  {
    var r := if ctx.ip in s.rates then Some(s.rates[ctx.ip]) else None;
    s.rates[ctx.ip := L.CountAttempt(r, ctx.now, cfg.span, cfg.attempts)]
  }

  // ---- Offers ----

  function Unexpired(offers: map<Code, Offer>, now: int): (kept: map<Code, Offer>)
  {
    map c | c in offers && now < offers[c].expires :: offers[c]
  }

  function OfferChecked(cfg: Config, s: State, ctx: Context, code: Code, bundle: C.Bundle): (reply: Reply)
    requires ctx.conn in s.hellos
  {
    if !ValidCode(code) then BadCode
    else if bundle != s.hellos[ctx.conn] then BadAuth
    else if code in Unexpired(s.offers, ctx.now) then CodeInUse
    else if |Unexpired(s.offers, ctx.now)| >= cfg.maxOffers then ServerFull
    else if ctx.conn !in s.connected then PeerUnavailable
    else Ok
  }

  function NewOffer(cfg: Config, serial: nat, ctx: Context, bundle: C.Bundle, state: OfferState): (offer: Offer)
  {
    Offer(serial, ctx.conn, bundle, C.Fingerprint(cfg.suite, bundle), ctx.now + cfg.ttl, state)
  }

  /** An outbox with one more frame, accounted for. */
  function Told(box: O.State, frame: O.Unit): (box': O.State)
  {
    O.Push(box, frame).(counter := box.counter + O.Size(frame))
  }

  /** The confirmation frame fits the offerer's outbox or the offer is dead on arrival. */
  function OnOffer(cfg: Config, s: State, ctx: Context, code: Code, bundle: C.Bundle): (out: (State, Reply))
    requires ctx.conn in s.hellos && ctx.conn in s.boxes
  {
    var reply := OfferChecked(cfg, s, ctx, code, bundle);
    var s1 := if reply.BadCode? || reply.BadAuth? then s else s.(offers := Unexpired(s.offers, ctx.now));
    if !reply.Ok? then (s1, reply)
    else
      var box := s.boxes[ctx.conn];
      var accepted := O.Accepts(cfg.box, box, ctx.frame);
      var offer := NewOffer(cfg, s.serials, ctx, bundle, if accepted then Published else Terminal);
      (s1.(offers := s1.offers[code := offer], serials := s.serials + 1,
           boxes := if accepted then s.boxes[ctx.conn := Told(box, ctx.frame)] else s.boxes),
       if accepted then Ok else PeerUnavailable)
  }

  // ---- Claims ----

  /** Both outboxes get a reservation before either frame is sent; a failure on the second drops the first. */
  function NotifyBoth(cfg: Config, boxes: map<ConnId, O.State>, a: ConnId, b: ConnId, ctx: Context):
    (out: (map<ConnId, O.State>, bool))
    requires a in boxes && b in boxes && a != b && ctx.frame.Frame? && ctx.other.Frame?
    requires ctx.t !in boxes[a].senders && ctx.t !in boxes[b].senders
  {
    var (boxA, okA) := O.Reserve(cfg.box, boxes[a], ctx.t, ctx.frame);
    if !okA then (boxes[a := boxA], false)
    else
      var (boxB, okB) := O.Reserve(cfg.box, boxes[b], ctx.t, ctx.other);
      if !okB then (boxes[a := O.GiveUp(cfg.box, boxA, ctx.t)][b := boxB], false)
      else
        (boxes[a := O.Step(cfg.box, boxA, O.SendReserved(ctx.t))][b := O.Step(cfg.box, boxB, O.SendReserved(ctx.t))],
         true)
  }

  /** Why a claim is turned away before the registry is asked. */
  function ClaimChecked(cfg: Config, s: State, ctx: Context, code: Code, bundle: C.Bundle): (reply: Reply)
    requires ctx.conn in s.hellos
  {
    if !ValidCode(code) then BadCode
    else if code !in s.offers || ctx.now >= s.offers[code].expires || !s.offers[code].state.Published? then CodeExpired
    else if bundle != s.hellos[ctx.conn] then BadAuth
    else if C.Fingerprint(cfg.suite, bundle) == s.offers[code].fp then SameIdentity
    else if s.offers[code].conn !in s.connected then PeerUnavailable
    else Ok
  }

  /** Outboxes of offerer and claimer are there and can be told apart. */
  predicate Notifiable(boxes: map<ConnId, O.State>, offerer: ConnId, ctx: Context)
  {
    && offerer in boxes && ctx.conn in boxes && offerer != ctx.conn && ctx.frame.Frame? && ctx.other.Frame?
    && ctx.t !in boxes[offerer].senders && ctx.t !in boxes[ctx.conn].senders
  }

  predicate CanNotify(s: State, ctx: Context, code: Code)
  {
    code in s.offers && Notifiable(s.boxes, s.offers[code].conn, ctx)
  }

  function ClaimOf(cfg: Config, offer: Offer, ctx: Context, bundle: C.Bundle): (c: Claim)
  {
    Claim(offer.serial, offer.conn, ctx.conn, C.RoomId(cfg.suite, offer.bundle, bundle), offer.fp,
      C.Fingerprint(cfg.suite, bundle))
  }

  /** The room is registered first, then both sides are notified. */
  function Conclude(cfg: Config, reg: R.State, boxes: map<ConnId, O.State>, offer: Offer, ctx: Context,
                    bundle: C.Bundle):
    (out: (R.State, map<ConnId, O.State>, Reply))
    requires Notifiable(boxes, offer.conn, ctx)
  {
    var claim := ClaimOf(cfg, offer, ctx, bundle);
    var (reg', answer) := R.CommitRoom(reg, claim.room, claim.offererFp, claim.claimerFp, ctx.now, ctx.write);
    if answer.Refused? then (reg', boxes, RegistryFailed)
    else
      var (boxes', sent) := NotifyBoth(cfg, boxes, offer.conn, ctx.conn, ctx);
      (reg', boxes', if sent then Ok else PeerUnavailable)
  }

  function OnClaim(cfg: Config, s: State, ctx: Context, code: Code, bundle: C.Bundle): (out: (State, Reply))
    requires ctx.conn in s.hellos && (ClaimChecked(cfg, s, ctx, code, bundle).Ok? ==> CanNotify(s, ctx, code))
  {
    var reply := ClaimChecked(cfg, s, ctx, code, bundle);
    if reply.BadCode? then (s, reply)
    else
      var s1 := s.(offers := Kill(s.offers, code));
      if !reply.Ok? then (s1, reply)
      else
        var offer := s.offers[code];
        var (reg, boxes, result) := Conclude(cfg, s.reg, s.boxes, offer, ctx, bundle);
        (s1.(reg := reg, boxes := boxes,
             claims := if result.Ok? then s.claims + [ClaimOf(cfg, offer, ctx, bundle)] else s.claims,
             notices := if result.Ok? then s.notices + [Notice(offer.serial, offer.conn, bundle),
                                                        Notice(offer.serial, ctx.conn, offer.bundle)]
                        else s.notices),
         result)
  }

  /** A request over the attempt budget is refused, and burns the code it named if it was a claim. */
  function HandleOffer(cfg: Config, s: State, ctx: Context, code: Code, bundle: C.Bundle): (out: (State, Reply))
    requires ctx.conn in s.hellos && ctx.conn in s.boxes
  {
    var s1 := s.(rates := Charged(cfg, s, ctx));
    if !Allowed(cfg, s, ctx) then (s1, RateLimited) else OnOffer(cfg, s1, ctx, code, bundle)
  }

  function HandleClaim(cfg: Config, s: State, ctx: Context, code: Code, bundle: C.Bundle): (out: (State, Reply))
    requires ctx.conn in s.hellos && (ClaimChecked(cfg, s, ctx, code, bundle).Ok? ==> CanNotify(s, ctx, code))
  {
    var s1 := s.(rates := Charged(cfg, s, ctx));
    if !Allowed(cfg, s, ctx) then (s1.(offers := Kill(s.offers, code)), RateLimited)
    else OnClaim(cfg, s1, ctx, code, bundle)
  }

  function KillOf(offers: map<Code, Offer>, c: ConnId): (offers': map<Code, Offer>)
  {
    map x | x in offers :: if offers[x].conn == c then offers[x].(state := Terminal) else offers[x]
  }

  // ---- Runs ----

  /** A connection says hello once, on a new outbox; its later frames come while it is alive. */
  predicate Enabled(cfg: Config, s: State, e: Event)
  {
    match e
    case Hello(c, _) => c !in s.hellos
    case MakeOffer(ctx, _, _) => ctx.conn in s.hellos && ctx.conn in s.boxes && ctx.frame.Frame?
    case MakeClaim(ctx, code, bundle) =>
      ctx.conn in s.hellos && ctx.frame.Frame? && ctx.other.Frame?
      && forall c :: c in s.boxes ==> ctx.t !in s.boxes[c].senders
    case Disconnect(_) => true
    case BoxStep(c, o) => c in s.boxes && O.Enabled(cfg.box, s.boxes[c], o)
    case RegStep(r) => r.Activate? || r.Prune?
    case Restart => true
  }

  /** Connections, outboxes and bundles belong together. */
  predicate Wired(s: State)
  {
    && s.boxes.Keys == s.hellos.Keys
    && (forall code :: code in s.offers ==>
          s.offers[code].conn in s.hellos && s.offers[code].bundle == s.hellos[s.offers[code].conn])
  }

  predicate FpsMatch(cfg: Config, s: State)
  {
    forall code :: code in s.offers ==> s.offers[code].fp == C.Fingerprint(cfg.suite, s.offers[code].bundle)
  }

  lemma {:induction false} ClaimableFromElsewhere(cfg: Config, s: State, ctx: Context, code: Code, bundle: C.Bundle)
    requires Wired(s) && FpsMatch(cfg, s) && Enabled(cfg, s, MakeClaim(ctx, code, bundle))
    ensures ClaimChecked(cfg, s, ctx, code, bundle).Ok? ==> CanNotify(s, ctx, code)
  {
  }

  function Step(cfg: Config, s: State, e: Event): (s': State)
    requires Enabled(cfg, s, e) && Wired(s) && FpsMatch(cfg, s)
  {
    match e
    case Hello(c, bundle) =>
      s.(hellos := s.hellos[c := bundle], boxes := s.boxes[c := O.State([], 0, map[], None, 0, true, false, [], [])],
         connected := s.connected + {c})
    case MakeOffer(ctx, code, bundle) => HandleOffer(cfg, s, ctx, code, bundle).0
    case MakeClaim(ctx, code, bundle) =>
      ClaimableFromElsewhere(cfg, s, ctx, code, bundle);
      HandleClaim(cfg, s, ctx, code, bundle).0
    case Disconnect(c) => s.(offers := KillOf(s.offers, c), connected := s.connected - {c})
    case BoxStep(c, o) => s.(boxes := s.boxes[c := O.Step(cfg.box, s.boxes[c], o)])
    case RegStep(r) => s.(reg := R.Step(s.reg, r))
    case Restart =>
      s.(offers := map[], rates := map[], boxes := map[], connected := {}, hellos := map[],
         reg := R.Step(R.Step(s.reg, R.Crash), R.Open))
  }

  // ---- Offers between calls ----

  /** Between calls every offer is published or terminal, and offers are told apart by their serials. */
  predicate OffersInv(offers: map<Code, Offer>, serials: nat)
  {
    && (forall x :: x in offers ==>
          (offers[x].state.Published? || offers[x].state.Terminal?) && offers[x].serial < serials)
    && (forall x, y :: x in offers && y in offers && offers[x].serial == offers[y].serial ==> x == y)
  }

  /** A claimed offer is terminal as long as it is there, and no offer is claimed twice. */
  predicate ClaimsInv(offers: map<Code, Offer>, claims: seq<Claim>, serials: nat)
  {
    && (forall i :: 0 <= i < |claims| ==> claims[i].serial < serials)
    && (forall i, j :: 0 <= i < j < |claims| ==> claims[i].serial != claims[j].serial)
    && (forall x, i :: x in offers && 0 <= i < |claims| && offers[x].serial == claims[i].serial ==>
          offers[x].state.Terminal?)
  }

  /** Every claim has told both sides, and nobody else was told. */
  predicate NoticesInv(claims: seq<Claim>, notices: seq<Notice>)
  {
    && |notices| == 2 * |claims|
    && (forall i :: 0 <= i < |claims| ==>
          && notices[2 * i].serial == claims[i].serial == notices[2 * i + 1].serial
          && notices[2 * i].to == claims[i].offerer && notices[2 * i + 1].to == claims[i].claimer)
  }

  predicate Inv(cfg: Config, s: State)
  {
    && Wired(s) && FpsMatch(cfg, s) && OffersInv(s.offers, s.serials)
    && ClaimsInv(s.offers, s.claims, s.serials) && NoticesInv(s.claims, s.notices)
  }

  /** `offers'` has only offers of `offers`, possibly terminated. */
  predicate Aged(offers: map<Code, Offer>, offers': map<Code, Offer>)
  {
    forall x :: x in offers' ==> x in offers && (offers'[x] == offers[x] || offers'[x] == offers[x].(state := Terminal))
  }

  lemma {:induction false} AgedKeepsInv(cfg: Config, s: State, s': State)
    requires Inv(cfg, s) && Aged(s.offers, s'.offers) && s'.serials == s.serials && s'.claims == s.claims
             && s'.notices == s.notices
    requires s'.hellos == s.hellos && s'.boxes.Keys == s.boxes.Keys
    ensures Inv(cfg, s')
  {
  }

  lemma {:induction false} NewOfferKeepsInv(cfg: Config, s: State, s': State, code: Code, offer: Offer)
    requires Inv(cfg, s) && code !in s.offers && s'.offers == s.offers[code := offer]
    requires offer.serial == s.serials && s'.serials == s.serials + 1
    requires offer.state.Published? || offer.state.Terminal?
    requires offer.conn in s.hellos && offer.bundle == s.hellos[offer.conn]
             && offer.fp == C.Fingerprint(cfg.suite, offer.bundle)
    requires s'.claims == s.claims && s'.notices == s.notices && s'.hellos == s.hellos && s'.boxes.Keys == s.boxes.Keys
    ensures Inv(cfg, s')
  {
  }

  lemma {:induction false} OfferKeepsInv(cfg: Config, s: State, ctx: Context, code: Code, bundle: C.Bundle)
    requires Inv(cfg, s) && Enabled(cfg, s, MakeOffer(ctx, code, bundle))
    ensures Inv(cfg, HandleOffer(cfg, s, ctx, code, bundle).0)
  {
    var s1 := s.(rates := Charged(cfg, s, ctx));
    var s' := HandleOffer(cfg, s, ctx, code, bundle).0;
    if !Allowed(cfg, s, ctx) || !OfferChecked(cfg, s1, ctx, code, bundle).Ok? {
      AgedKeepsInv(cfg, s, s');
    } else {
      var s2 := s1.(offers := Unexpired(s.offers, ctx.now));
      AgedKeepsInv(cfg, s, s2);
      assert s'.boxes.Keys == s.boxes.Keys;
      NewOfferKeepsInv(cfg, s2, s', code, s'.offers[code]);
    }
  }

  // ---- Claims ----

  /** Both connections are told or neither is; if neither, both outboxes are exactly as before. */
  lemma {:induction false} AllOrNothing(cfg: Config, boxes: map<ConnId, O.State>, a: ConnId, b: ConnId, ctx: Context)
    requires a in boxes && b in boxes && a != b && ctx.frame.Frame? && ctx.other.Frame?
    requires ctx.t !in boxes[a].senders && ctx.t !in boxes[b].senders
    ensures var (boxes', sent) := NotifyBoth(cfg, boxes, a, b, ctx);
            && (sent <==> O.Accepts(cfg.box, boxes[a], ctx.frame) && O.Accepts(cfg.box, boxes[b], ctx.other))
            && boxes' == if sent then boxes[a := Told(boxes[a], ctx.frame)][b := Told(boxes[b], ctx.other)] else boxes
  {
    O.ReserveIsAlone(cfg.box, boxes[a], ctx.t, ctx.frame);
    O.ReserveIsAlone(cfg.box, boxes[b], ctx.t, ctx.other);
    O.DropUndoesReserve(cfg.box, boxes[a], ctx.t, ctx.frame);
    O.SendCompletesReserve(cfg.box, boxes[a], ctx.t, ctx.frame);
    O.SendCompletesReserve(cfg.box, boxes[b], ctx.t, ctx.other);
    assert boxes[a := boxes[a]] == boxes && boxes[b := boxes[b]] == boxes;
  }

  /** What a claim leaves behind. */
  predicate ClaimEffect(cfg: Config, s: State, s': State, ctx: Context, code: Code, bundle: C.Bundle, reply: Reply)
  {
    && s'.hellos == s.hellos && s'.connected == s.connected && s'.serials == s.serials && s'.boxes.Keys == s.boxes.Keys
    && Aged(s.offers, s'.offers) && s'.offers.Keys == s.offers.Keys
    && (code in s.offers && !reply.BadCode? ==> s'.offers[code].state.Terminal?)
    && (!reply.Ok? ==> s'.boxes == s.boxes && s'.claims == s.claims && s'.notices == s.notices)
    && (reply.Ok? ==>
          && code in s.offers && s.offers[code].state.Published? && ctx.now < s.offers[code].expires
          && var claim := ClaimOf(cfg, s.offers[code], ctx, bundle);
          && s'.claims == s.claims + [claim]
          && s'.notices == s.notices + [Notice(claim.serial, claim.offerer, bundle),
                                        Notice(claim.serial, claim.claimer, s.offers[code].bundle)]
          && claim.offerer in s.boxes && claim.claimer in s.boxes && claim.offerer != claim.claimer
          && s'.boxes == s.boxes[claim.offerer := Told(s.boxes[claim.offerer], ctx.frame)]
                                [claim.claimer := Told(s.boxes[claim.claimer], ctx.other)]
          && claim.room in s'.reg.mem
          && {s'.reg.mem[claim.room].first, s'.reg.mem[claim.room].second} == {claim.offererFp, claim.claimerFp})
  }

  lemma {:induction false} KillAges(offers: map<Code, Offer>, code: Code)
    ensures Aged(offers, Kill(offers, code)) && Kill(offers, code).Keys == offers.Keys
    ensures code in offers ==> Kill(offers, code)[code].state.Terminal?
  {
  }

  lemma {:induction false} PassedClaimEffect(cfg: Config, s: State, ctx: Context, code: Code, bundle: C.Bundle)
    requires ctx.conn in s.hellos && ClaimChecked(cfg, s, ctx, code, bundle).Ok? && CanNotify(s, ctx, code)
    ensures var (s', reply) := OnClaim(cfg, s, ctx, code, bundle); ClaimEffect(cfg, s, s', ctx, code, bundle, reply)
  {
    var claim := ClaimOf(cfg, s.offers[code], ctx, bundle);
    KillAges(s.offers, code);
    AllOrNothing(cfg, s.boxes, claim.offerer, claim.claimer, ctx);
    R.CommitPromise(s.reg, claim.room, claim.offererFp, claim.claimerFp, ctx.now, ctx.write);
  }

  /** Success is for a live, published offer; it has registered the room to exactly the two fingerprints and
      tells both sides. Failure tells neither. Unless the code was malformed it is spent either way. */
  lemma {:induction false} ClaimHasEffect(cfg: Config, s: State, ctx: Context, code: Code, bundle: C.Bundle)
    requires Wired(s) && FpsMatch(cfg, s) && Enabled(cfg, s, MakeClaim(ctx, code, bundle))
    ensures ClaimChecked(cfg, s, ctx, code, bundle).Ok? ==> CanNotify(s, ctx, code)
    ensures var (s', reply) := HandleClaim(cfg, s, ctx, code, bundle); ClaimEffect(cfg, s, s', ctx, code, bundle, reply)
  {
    ClaimableFromElsewhere(cfg, s, ctx, code, bundle);
    KillAges(s.offers, code);
    var s1 := s.(rates := Charged(cfg, s, ctx));
    if Allowed(cfg, s, ctx) && ClaimChecked(cfg, s1, ctx, code, bundle).Ok? {
      PassedClaimEffect(cfg, s1, ctx, code, bundle);
    }
  }

  lemma {:induction false} SuccessKeepsClaims(s: State, s': State, code: Code, claim: Claim)
    requires OffersInv(s.offers, s.serials) && ClaimsInv(s.offers, s.claims, s.serials)
    requires code in s.offers && s.offers[code].state.Published? && claim.serial == s.offers[code].serial
    requires Aged(s.offers, s'.offers) && code in s'.offers && s'.offers[code].state.Terminal?
    requires s'.claims == s.claims + [claim] && s'.serials == s.serials
    ensures ClaimsInv(s'.offers, s'.claims, s'.serials)
  {
  }

  lemma {:induction false} SuccessKeepsNotices(claims: seq<Claim>, notices: seq<Notice>, claim: Claim, x: C.Bundle,
                                               y: C.Bundle)
    requires NoticesInv(claims, notices)
    ensures NoticesInv(claims + [claim],
                       notices + [Notice(claim.serial, claim.offerer, x), Notice(claim.serial, claim.claimer, y)])
  {
  }

  lemma {:induction false} EffectKeepsInv(cfg: Config, s: State, s': State, ctx: Context, code: Code,
                                          bundle: C.Bundle, reply: Reply)
    requires Inv(cfg, s) && ClaimEffect(cfg, s, s', ctx, code, bundle, reply)
    ensures Inv(cfg, s')
  {
    if reply.Ok? {
      var claim := ClaimOf(cfg, s.offers[code], ctx, bundle);
      AgedKeepsInv(cfg, s, s'.(claims := s.claims, notices := s.notices));
      SuccessKeepsClaims(s, s', code, claim);
      SuccessKeepsNotices(s.claims, s.notices, claim, bundle, s.offers[code].bundle);
    } else {
      AgedKeepsInv(cfg, s, s');
    }
  }

  lemma {:induction false} PassedSucceedsExactly(cfg: Config, s: State, ctx: Context, code: Code, bundle: C.Bundle)
    requires ctx.conn in s.hellos && ClaimChecked(cfg, s, ctx, code, bundle).Ok? && CanNotify(s, ctx, code)
    ensures OnClaim(cfg, s, ctx, code, bundle).1.Ok? <==> Granted(cfg, s.reg, s.boxes, s.offers[code], ctx, bundle)
  {
    AllOrNothing(cfg, s.boxes, s.offers[code].conn, ctx.conn, ctx);
  }

  /** The registry accepts the room and both outboxes have space. */
  predicate Granted(cfg: Config, reg: R.State, boxes: map<ConnId, O.State>, offer: Offer, ctx: Context,
                    bundle: C.Bundle)
    requires offer.conn in boxes && ctx.conn in boxes
  {
    && Registrable(cfg, reg, offer, ctx, bundle)
    && O.Accepts(cfg.box, boxes[offer.conn], ctx.frame) && O.Accepts(cfg.box, boxes[ctx.conn], ctx.other)
  }

  /** The registry takes the room of the two bundles for the two fingerprints. */
  predicate Registrable(cfg: Config, reg: R.State, offer: Offer, ctx: Context, bundle: C.Bundle)
  {
    var room, fp := C.RoomId(cfg.suite, offer.bundle, bundle), C.Fingerprint(cfg.suite, bundle);
    !R.CommitRoom(reg, room, offer.fp, fp, ctx.now, ctx.write).1.Refused?
  }

  /** The address has attempts left in its window. */
  predicate HasAttempt(cfg: Config, s: State, ctx: Context)
  {
    if ctx.ip in s.rates && ctx.now - s.rates[ctx.ip].start < cfg.span then s.rates[ctx.ip].attempts < cfg.attempts
    else 0 < cfg.attempts
  }

  predicate WellFormedCode(code: Code)
  {
    |code| == 6 && forall i :: 0 <= i < 6 ==> code[i] in "23456789ABCDEFGHJKMNPQRSTVWXYZ"
  }

  /** The code names an offer that can still be claimed. */
  predicate IsOffered(s: State, now: int, code: Code)
  {
    code in s.offers && s.offers[code].state.Published? && now < s.offers[code].expires
  }

  /** The claim comes from the identity the connection introduced itself as, which is not the offerer's, and the offerer
      is still connected. */
  predicate IsProper(cfg: Config, s: State, ctx: Context, code: Code, bundle: C.Bundle)
    requires code in s.offers && ctx.conn in s.hellos
  {
    bundle == s.hellos[ctx.conn] && C.Fingerprint(cfg.suite, bundle) != s.offers[code].fp
    && s.offers[code].conn in s.connected
  }

  /** A claim succeeds exactly when the budget allows it, the code is well formed and on offer, the claimer is the
      identity it introduced itself as and not the offerer, who is still connected, the registry accepts the room, and
      both outboxes have space. */
  lemma {:induction false} ClaimSucceedsExactly(cfg: Config, s: State, ctx: Context, code: Code, bundle: C.Bundle)
    requires Wired(s) && FpsMatch(cfg, s) && Enabled(cfg, s, MakeClaim(ctx, code, bundle))
    ensures ClaimChecked(cfg, s, ctx, code, bundle).Ok? ==> CanNotify(s, ctx, code)
    ensures HandleClaim(cfg, s, ctx, code, bundle).1.Ok? <==>
              && HasAttempt(cfg, s, ctx) && WellFormedCode(code) && IsOffered(s, ctx.now, code)
              && IsProper(cfg, s, ctx, code, bundle) && Granted(cfg, s.reg, s.boxes, s.offers[code], ctx, bundle)
  {
    ClaimableFromElsewhere(cfg, s, ctx, code, bundle);
    CodeForm(code);
    if ClaimChecked(cfg, s, ctx, code, bundle).Ok? {
      PassedSucceedsExactly(cfg, s.(rates := Charged(cfg, s, ctx)), ctx, code, bundle);
    }
  }

  lemma {:induction false} CodeForm(code: Code)
    ensures ValidCode(code) <==> WellFormedCode(code)
  {
  }

  /** Why a claim is refused, one reason at a time. */
  lemma {:induction false} ClaimRefusedExactly(cfg: Config, s: State, ctx: Context, code: Code, bundle: C.Bundle)
    requires Wired(s) && FpsMatch(cfg, s) && Enabled(cfg, s, MakeClaim(ctx, code, bundle))
    ensures ClaimChecked(cfg, s, ctx, code, bundle).Ok? ==> CanNotify(s, ctx, code)
    ensures var reply := HandleClaim(cfg, s, ctx, code, bundle).1;
            && (reply.RateLimited? <==> !HasAttempt(cfg, s, ctx))
            && (HasAttempt(cfg, s, ctx) ==>
                  && (reply.BadCode? <==> !WellFormedCode(code))
                  && (reply.CodeExpired? <==> WellFormedCode(code) && !IsOffered(s, ctx.now, code))
                  && (WellFormedCode(code) && IsOffered(s, ctx.now, code) ==>
                        var offer, own := s.offers[code], bundle == s.hellos[ctx.conn];
                        var same := C.Fingerprint(cfg.suite, bundle) == offer.fp;
                        && (reply.BadAuth? <==> !own)
                        && (reply.SameIdentity? <==> own && same)
                        && (own && !same && offer.conn !in s.connected ==> reply.PeerUnavailable?)
                        && (own && !same && offer.conn in s.connected ==>
                              && (reply.RegistryFailed? <==> !Registrable(cfg, s.reg, offer, ctx, bundle))
                              && (reply.PeerUnavailable? <==>
                                    && Registrable(cfg, s.reg, offer, ctx, bundle)
                                    && !Granted(cfg, s.reg, s.boxes, offer, ctx, bundle)))))
  {
    ClaimSucceedsExactly(cfg, s, ctx, code, bundle);
    CodeForm(code);
  }

  /** A claim burns the code it named, unless it was malformed and within the budget, and leaves every other offer
      alone. */
  lemma {:induction false} ClaimBurnsExactly(cfg: Config, s: State, ctx: Context, code: Code, bundle: C.Bundle, x: Code)
    requires Wired(s) && FpsMatch(cfg, s) && Enabled(cfg, s, MakeClaim(ctx, code, bundle))
    ensures ClaimChecked(cfg, s, ctx, code, bundle).Ok? ==> CanNotify(s, ctx, code)
    ensures var (s', reply) := HandleClaim(cfg, s, ctx, code, bundle);
            && s'.offers.Keys == s.offers.Keys && s'.hellos == s.hellos && s'.connected == s.connected
            && (x in s.offers ==>
                  s'.offers[x] == if x == code && !reply.BadCode? then s.offers[x].(state := Terminal)
                                  else s.offers[x])
  {
    ClaimableFromElsewhere(cfg, s, ctx, code, bundle);
  }

  /** An offer is published exactly when the budget allows it, the code is well formed and free, the offerer is who it
      introduced itself as and still connected, there is room for one more offer, and the confirmation fits its outbox.
      Every refusal has its own condition. */
  lemma {:induction false} OfferAnsweredExactly(cfg: Config, s: State, ctx: Context, code: Code, bundle: C.Bundle)
    requires Enabled(cfg, s, MakeOffer(ctx, code, bundle))
    ensures var reply := HandleOffer(cfg, s, ctx, code, bundle).1;
            var own := bundle == s.hellos[ctx.conn];
            var taken := code in s.offers && ctx.now < s.offers[code].expires;
            var live := set x | x in s.offers && ctx.now < s.offers[x].expires;
            && (reply.RateLimited? <==> !HasAttempt(cfg, s, ctx))
            && (HasAttempt(cfg, s, ctx) ==>
                  && (reply.BadCode? <==> !WellFormedCode(code))
                  && (reply.BadAuth? <==> WellFormedCode(code) && !own)
                  && (reply.CodeInUse? <==> WellFormedCode(code) && own && taken)
                  && (reply.ServerFull? <==> WellFormedCode(code) && own && !taken && |live| >= cfg.maxOffers)
                  && (reply.PeerUnavailable? <==>
                        && WellFormedCode(code) && own && !taken && |live| < cfg.maxOffers
                        && (ctx.conn !in s.connected || !O.Accepts(cfg.box, s.boxes[ctx.conn], ctx.frame)))
                  && (reply.Ok? <==>
                        && WellFormedCode(code) && own && !taken && |live| < cfg.maxOffers
                        && ctx.conn in s.connected && O.Accepts(cfg.box, s.boxes[ctx.conn], ctx.frame)))
  {
    CodeForm(code);
    assert Unexpired(s.offers, ctx.now).Keys == set x | x in s.offers && ctx.now < s.offers[x].expires;
  }

  /** A published offer runs for the time to live, belongs to the connection and its bundle, and is told to it; expired
      offers go, the others stay as they are. */
  lemma {:induction false} OfferHasEffect(cfg: Config, s: State, ctx: Context, code: Code, bundle: C.Bundle, x: Code)
    requires Enabled(cfg, s, MakeOffer(ctx, code, bundle)) && HandleOffer(cfg, s, ctx, code, bundle).1.Ok?
    ensures var s' := HandleOffer(cfg, s, ctx, code, bundle).0;
            IsOffered(s', ctx.now, code) <==> 0 < cfg.ttl
    ensures var s' := HandleOffer(cfg, s, ctx, code, bundle).0;
            && code in s'.offers && s'.offers[code].state.Published? && s'.offers[code].expires == ctx.now + cfg.ttl
            && s'.offers[code].conn == ctx.conn && s'.offers[code].bundle == bundle
            && s'.offers[code].fp == C.Fingerprint(cfg.suite, bundle) && s'.offers[code].serial == s.serials
            && (x != code ==>
                  && (x in s'.offers <==> x in s.offers && ctx.now < s.offers[x].expires)
                  && (x in s'.offers ==> s'.offers[x] == s.offers[x]))
            && s'.boxes[ctx.conn].pushed == s.boxes[ctx.conn].pushed + [ctx.frame]
  {
  }

  /** A disconnect makes exactly the connection's own offers terminal. */
  lemma {:induction false} DisconnectBurnsExactly(cfg: Config, s: State, c: ConnId, x: Code)
    requires Wired(s) && FpsMatch(cfg, s)
    ensures var s' := Step(cfg, s, Disconnect(c));
            && s'.offers.Keys == s.offers.Keys && s'.connected == s.connected - {c}
            && (x in s.offers ==>
                  s'.offers[x] == if s.offers[x].conn == c then s.offers[x].(state := Terminal) else s.offers[x])
  {
  }

  lemma {:induction false} StepKeepsInv(cfg: Config, s: State, e: Event)
    requires Inv(cfg, s) && Enabled(cfg, s, e)
    ensures Inv(cfg, Step(cfg, s, e))
  {
    match e
    case MakeOffer(ctx, code, bundle) => OfferKeepsInv(cfg, s, ctx, code, bundle);
    case MakeClaim(ctx, code, bundle) =>
      ClaimHasEffect(cfg, s, ctx, code, bundle);
      var (s', reply) := HandleClaim(cfg, s, ctx, code, bundle);
      EffectKeepsInv(cfg, s, s', ctx, code, bundle, reply);
    case Hello(c, bundle) => HelloKeepsInv(cfg, s, c, bundle);
    case Restart =>
    case _ => AgedKeepsInv(cfg, s, Step(cfg, s, e));
  }

  lemma {:induction false} HelloKeepsInv(cfg: Config, s: State, c: ConnId, bundle: C.Bundle)
    requires Inv(cfg, s) && Enabled(cfg, s, Hello(c, bundle))
    ensures Inv(cfg, Step(cfg, s, Hello(c, bundle)))
  {
  }

  /** `Wired` and `FpsMatch` hold in every state a run reaches (`StepKeepsInv`); they are here because `Step` needs
      them to be well defined. */
  predicate Legal(cfg: Config, s: State, events: seq<Event>)
    decreases |events|
  {
    events == []
    || (Enabled(cfg, s, events[0]) && Wired(s) && FpsMatch(cfg, s) && Legal(cfg, Step(cfg, s, events[0]), events[1..]))
  }

  function Run(cfg: Config, s: State, events: seq<Event>): (s': State)
    requires Legal(cfg, s, events)
    decreases |events|
  {
    if events == [] then s else Run(cfg, Step(cfg, s, events[0]), events[1..])
  }

  predicate Init(s: State)
  {
    s == State(map[], map[], map[], {}, map[], R.State(map[], map[], true), 0, [], [])
  }

  lemma {:induction false} RunKeepsInv(cfg: Config, s: State, events: seq<Event>)
    requires Inv(cfg, s) && Legal(cfg, s, events)
    ensures Inv(cfg, Run(cfg, s, events))
    decreases |events|
  {
    if events != [] {
      StepKeepsInv(cfg, s, events[0]);
      RunKeepsInv(cfg, Step(cfg, s, events[0]), events[1..]);
    }
  }

  // ---- Theorems ----

  /** Over any run, no offer is claimed twice, every claim told exactly its two sides, nobody was told anything
      else, and between calls every offer is published or terminal. */
  lemma {:induction false} OneClaimPerOffer(cfg: Config, s: State, events: seq<Event>)
    requires Init(s) && Legal(cfg, s, events)
    ensures var s' := Run(cfg, s, events);
            ClaimsInv(s'.offers, s'.claims, s'.serials) && NoticesInv(s'.claims, s'.notices)
              && OffersInv(s'.offers, s'.serials)
  {
    RunKeepsInv(cfg, s, events);
  }

  /** The offer numbered `serial` is terminal or gone. */
  predicate Spent(s: State, serial: nat)
  {
    serial < s.serials && forall x :: x in s.offers && s.offers[x].serial == serial ==> s.offers[x].state.Terminal?
  }

  lemma {:induction false} AgedStaysSpent(s: State, s': State, serial: nat)
    requires Spent(s, serial) && s'.serials >= s.serials
    requires forall x :: x in s'.offers && s'.offers[x].serial < s.serials ==>
               x in s.offers && (s'.offers[x] == s.offers[x] || s'.offers[x] == s.offers[x].(state := Terminal))
    ensures Spent(s', serial)
  {
  }

  lemma {:induction false} OffersAge(cfg: Config, s: State, ctx: Context, code: Code, bundle: C.Bundle)
    requires Inv(cfg, s) && Enabled(cfg, s, MakeOffer(ctx, code, bundle))
    ensures var s' := HandleOffer(cfg, s, ctx, code, bundle).0;
            && s'.serials >= s.serials && s'.claims == s.claims
            && forall x :: x in s'.offers && s'.offers[x].serial < s.serials ==>
                 x in s.offers && s'.offers[x] == s.offers[x]
  {
  }

  /** The later claims are not of this offer. */
  predicate NotClaimedSince(s: State, s': State, serial: nat)
  {
    && |s.claims| <= |s'.claims| && s'.claims[..|s.claims|] == s.claims
    && forall i :: |s.claims| <= i < |s'.claims| ==> s'.claims[i].serial != serial
  }

  lemma {:induction false} StaysSpent(cfg: Config, s: State, e: Event, serial: nat)
    requires Inv(cfg, s) && Enabled(cfg, s, e) && Spent(s, serial)
    ensures Spent(Step(cfg, s, e), serial) && NotClaimedSince(s, Step(cfg, s, e), serial)
  {
    if e.MakeClaim? {
      ClaimHasEffect(cfg, s, e.ctx, e.code, e.bundle);
      AgedStaysSpent(s, Step(cfg, s, e), serial);
    } else if e.MakeOffer? {
      OffersAge(cfg, s, e.ctx, e.code, e.bundle);
      AgedStaysSpent(s, Step(cfg, s, e), serial);
    }
  }

  lemma {:induction false} NotClaimedTransitive(a: State, b: State, c: State, serial: nat)
    requires NotClaimedSince(a, b, serial) && NotClaimedSince(b, c, serial)
    ensures NotClaimedSince(a, c, serial)
  {
  }

  /** Terminal is absorbing: once an offer is terminal, or has been dropped, no run claims it any more. */
  lemma {:induction false} TerminalIsAbsorbing(cfg: Config, s: State, events: seq<Event>, serial: nat)
    requires Inv(cfg, s) && Legal(cfg, s, events) && Spent(s, serial)
    ensures Spent(Run(cfg, s, events), serial) && NotClaimedSince(s, Run(cfg, s, events), serial)
    decreases |events|
  {
    if events != [] {
      var s1 := Step(cfg, s, events[0]);
      StaysSpent(cfg, s, events[0], serial);
      StepKeepsInv(cfg, s, events[0]);
      TerminalIsAbsorbing(cfg, s1, events[1..], serial);
      NotClaimedTransitive(s, s1, Run(cfg, s1, events[1..]), serial);
    }
  }
}
