/** The pairing relay as the program runs it: offers and rates changed in place, one request at a time. */
module PairingEngine {
  import opened Prelude
  import opened PairingRelay
  import C = Crypto
  import R = Registry
  import O = Outbox
  import L = RateLimit

  lemma {:induction false} OfferFields(cfg: Config, s: State, ctx: Context, code: Code, bundle: C.Bundle)
    requires ctx.conn in s.hellos && ctx.conn in s.boxes
    ensures var (s', reply) := PairingRelay.OnOffer(cfg, s, ctx, code, bundle);
            var vetted, ok := OfferChecked(cfg, s, ctx, code, bundle), O.Accepts(cfg.box, s.boxes[ctx.conn], ctx.frame);
            && s'.rates == s.rates && s'.reg == s.reg
            && (!vetted.Ok? ==>
                  && reply == vetted && s'.boxes == s.boxes && s'.serials == s.serials
                  && s'.offers == if vetted.BadCode? || vetted.BadAuth? then s.offers else Unexpired(s.offers, ctx.now))
            && (vetted.Ok? ==>
                  && reply == (if ok then Ok else PeerUnavailable) && s'.serials == s.serials + 1
                  && s'.boxes == (if ok then s.boxes[ctx.conn := Told(s.boxes[ctx.conn], ctx.frame)] else s.boxes)
                  && s'.offers == Unexpired(s.offers, ctx.now)[code := NewOffer(cfg, s.serials, ctx, bundle,
                                                                                if ok then Published else Terminal)])
  {
  }

  /** `view` is the abstract state the fields implement; `boxes` and `registry` stand for the objects the relay
      calls. */
  class Relay {
    const cfg: Config
    var offers: map<Code, Offer>
    var rates: map<L.Ip, L.Rate>
    var boxes: map<ConnId, O.State>
    var registry: R.State
    var serials: nat
    ghost var view: State

    ghost predicate Ready()
      reads this
    {
      && offers == view.offers && rates == view.rates && boxes == view.boxes && registry == view.reg
      && serials == view.serials
    }

    /** Counts the attempt unless the window's budget is used up. */
    method AllowAttempt(ip: L.Ip, now: int) returns (ok: bool)
      modifies this`rates
      ensures var r := if ip in old(rates) then Some(old(rates)[ip]) else None;
              && ok == L.AllowsAttempt(r, now, cfg.span, cfg.attempts)
              && rates == old(rates)[ip := L.CountAttempt(r, now, cfg.span, cfg.attempts)]
    {
      if ip !in rates {
        rates := rates[ip := L.Rate(now, 0)];
      }
      if now - rates[ip].start >= cfg.span {
        rates := rates[ip := L.Rate(now, 0)];
      }
      assert rates == old(rates)[ip := rates[ip]];
      if rates[ip].attempts >= cfg.attempts {
        return false;
      }
      rates := rates[ip := rates[ip].(attempts := rates[ip].attempts + 1)];
      return true;
    }

    method SetState(code: Code, state: OfferState)
      modifies this`offers
      ensures offers == if code in old(offers) then old(offers)[code := old(offers)[code].(state := state)]
              else old(offers)
    {
      if code in offers {
        offers := offers[code := offers[code].(state := state)];
      }
    }

    /** Drops every expired offer. */
    method DropExpired(now: int)
      modifies this`offers
      ensures offers == Unexpired(old(offers), now)
    {
      var kept: map<Code, Offer> := map[];
      var left := offers.Keys;
      while left != {}
        invariant left <= offers.Keys && offers == old(offers)
        invariant kept == map c | c in offers && c !in left && now < offers[c].expires :: offers[c]
      {
        var c :| c in left;
        left := left - {c};
        if now < offers[c].expires {
          kept := kept[c := offers[c]];
        }
      }
      offers := kept;
    }

    method Tell(conn: ConnId, frame: O.Unit) returns (ok: bool)
      requires conn in boxes
      modifies this`boxes
      ensures ok <==> O.Accepts(cfg.box, old(boxes)[conn], frame)
      ensures boxes == if ok then old(boxes)[conn := Told(old(boxes)[conn], frame)] else old(boxes)
    {
      ok := O.Accepts(cfg.box, boxes[conn], frame);
      if ok {
        boxes := boxes[conn := Told(boxes[conn], frame)];
      }
    }

    /** Insert the offer as preparing, confirm it to the offerer, publish it or kill it. */
    method Publish(ctx: Context, code: Code, bundle: C.Bundle) returns (ok: bool)
      requires ctx.conn in boxes && code !in offers
      modifies this`offers, this`boxes, this`serials
      ensures ok <==> O.Accepts(cfg.box, old(boxes)[ctx.conn], ctx.frame)
      ensures boxes == if ok then old(boxes)[ctx.conn := Told(old(boxes)[ctx.conn], ctx.frame)] else old(boxes)
      ensures serials == old(serials) + 1
      ensures offers == old(offers)[code := NewOffer(cfg, old(serials), ctx, bundle,
                                                     if ok then Published else Terminal)]
    {
      offers := offers[code := NewOffer(cfg, serials, ctx, bundle, Preparing)];
      serials := serials + 1;
      ok := Tell(ctx.conn, ctx.frame);
      SetState(code, if ok then Published else Terminal);
    }

    /** The checks before an offer is stored; expired offers are dropped on the way. */
    method VetOffer(ctx: Context, code: Code, bundle: C.Bundle, hello: C.Bundle, connected: bool) returns (reply: Reply)
      modifies this`offers
      ensures !ValidCode(code) || bundle != hello ==> offers == old(offers)
      ensures ValidCode(code) && bundle == hello ==> offers == Unexpired(old(offers), ctx.now)
      ensures reply == if !ValidCode(code) then BadCode else if bundle != hello then BadAuth
                       else if code in offers then CodeInUse else if |offers| >= cfg.maxOffers then ServerFull
                       else if !connected then PeerUnavailable else Ok
    {
      if !ValidCode(code) {
        return BadCode;
      }
      if bundle != hello {
        return BadAuth;
      }
      DropExpired(ctx.now);
      if code in offers {
        return CodeInUse;
      }
      if |offers| >= cfg.maxOffers {
        return ServerFull;
      }
      return if connected then Ok else PeerUnavailable;
    }

    /** `hello` is the bundle the connection introduced itself with, `connected` whether it is still in the
        connection table. */
    method OnOffer(ctx: Context, code: Code, bundle: C.Bundle, hello: C.Bundle, connected: bool) returns (reply: Reply)
      requires Ready() && ctx.conn in view.hellos && view.hellos[ctx.conn] == hello && ctx.conn in boxes
      requires connected <==> ctx.conn in view.connected
      modifies this
      ensures Ready() && (view, reply) == PairingRelay.OnOffer(cfg, old(view), ctx, code, bundle)
    {
      OfferFields(cfg, view, ctx, code, bundle);
      view := PairingRelay.OnOffer(cfg, view, ctx, code, bundle).0;
      reply := VetOffer(ctx, code, bundle, hello, connected);
      if !reply.Ok? {
        return;
      }
      var ok := Publish(ctx, code, bundle);
      return if ok then Ok else PeerUnavailable;
    }

    /** Reserve on both outboxes, then send both; a failed second reservation drops the first. */
    method NotifyPair(a: ConnId, b: ConnId, ctx: Context) returns (ok: bool)
      requires a in boxes && b in boxes && a != b && ctx.frame.Frame? && ctx.other.Frame?
      requires ctx.t !in boxes[a].senders && ctx.t !in boxes[b].senders
      modifies this`boxes
      ensures (boxes, ok) == NotifyBoth(cfg, old(boxes), a, b, ctx)
    {
      var (boxA, okA) := O.Reserve(cfg.box, boxes[a], ctx.t, ctx.frame);
      boxes := boxes[a := boxA];
      if !okA {
        return false;
      }
      var (boxB, okB) := O.Reserve(cfg.box, boxes[b], ctx.t, ctx.other);
      boxes := boxes[b := boxB];
      if !okB {
        boxes := boxes[a := O.GiveUp(cfg.box, boxes[a], ctx.t)];
        assert boxes == old(boxes)[a := O.GiveUp(cfg.box, boxA, ctx.t)][b := boxB];
        return false;
      }
      boxes := boxes[a := O.Step(cfg.box, boxes[a], O.SendReserved(ctx.t))];
      boxes := boxes[b := O.Step(cfg.box, boxes[b], O.SendReserved(ctx.t))];
      assert boxes == old(boxes)[a := O.Step(cfg.box, boxA, O.SendReserved(ctx.t))]
                                [b := O.Step(cfg.box, boxB, O.SendReserved(ctx.t))];
      return true;
    }

    method OnClaim(ctx: Context, code: Code, bundle: C.Bundle, hello: C.Bundle, connected: set<ConnId>)
      returns (reply: Reply)
      requires Ready() && ctx.conn in view.hellos && view.hellos[ctx.conn] == hello && connected == view.connected
      requires ClaimChecked(cfg, view, ctx, code, bundle).Ok? ==> CanNotify(view, ctx, code)
      modifies this
      ensures Ready() && (view, reply) == PairingRelay.OnClaim(cfg, old(view), ctx, code, bundle)
    {
      ghost var before := view;
      view := PairingRelay.OnClaim(cfg, view, ctx, code, bundle).0;
      if !ValidCode(code) {
        return BadCode;
      }
      if code !in offers {
        return CodeExpired;
      }
      var offer := offers[code];
      if ctx.now >= offer.expires || !offer.state.Published? {
        SetState(code, Terminal);
        return CodeExpired;
      }
      SetState(code, Claimed);
      if bundle != hello {
        reply := BadAuth;
      } else if C.Fingerprint(cfg.suite, bundle) == offer.fp {
        reply := SameIdentity;
      } else if offer.conn !in connected {
        reply := PeerUnavailable;
      } else {
        reply := Conclude(ctx, offer, bundle);
      }
      SetState(code, Terminal);
      assert offers == Kill(before.offers, code);
    }

    /** Registers the room, then notifies both sides. */
    method Conclude(ctx: Context, offer: Offer, bundle: C.Bundle) returns (reply: Reply)
      requires Notifiable(boxes, offer.conn, ctx)
      modifies this`boxes, this`registry
      ensures (registry, boxes, reply) == PairingRelay.Conclude(cfg, old(registry), old(boxes), offer, ctx, bundle)
    {
      var room := C.RoomId(cfg.suite, offer.bundle, bundle);
      var fp := C.Fingerprint(cfg.suite, bundle);
      var (reg, answer) := R.CommitRoom(registry, room, offer.fp, fp, ctx.now, ctx.write);
      registry := reg;
      if answer.Refused? {
        return RegistryFailed;
      }
      var sent := NotifyPair(offer.conn, ctx.conn, ctx);
      return if sent then Ok else PeerUnavailable;
    }

    /** Every offer of a closing connection becomes terminal. */
    method OnDisconnect(conn: ConnId)
      requires Ready()
      modifies this
      ensures Ready() && view == old(view).(offers := KillOf(old(view).offers, conn))
    {
      var left := offers.Keys;
      ghost var before := offers;
      while left != {}
        invariant left <= offers.Keys && offers.Keys == before.Keys
        invariant forall c :: c in offers ==>
                    offers[c] == if c in left || before[c].conn != conn then before[c]
                                 else before[c].(state := Terminal)
        invariant rates == view.rates && boxes == view.boxes && registry == view.reg && serials == view.serials
                  && view == old(view)
      {
        var c :| c in left;
        left := left - {c};
        if offers[c].conn == conn && !offers[c].state.Terminal? {
          offers := offers[c := offers[c].(state := Terminal)];
        }
      }
      assert offers == KillOf(before, conn);
      view := view.(offers := offers);
    }
  }
}
