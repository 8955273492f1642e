/** Fixed-window limiters, one counter per client address: join attempts and inbound bytes share a
    window, pairing attempts have their own. Time is a parameter and never goes back. */
module RateLimit {
  import opened Prelude

  type Ip = string

  const U32_SIZE: nat := 0x1_0000_0000

  datatype Window = Window(start: int, joins: nat, bytes: nat)

  datatype Limits = Limits(maxJoins: nat, maxBytes: nat, span: int)

  predicate ValidLimits(l: Limits)
  {
    l.span >= 0 && l.maxJoins < U32_SIZE && l.maxBytes <= U64_MAX
  }

  datatype Request = JoinAttempt | Inbound(bytes: nat)

  /** The window a request at `now` is counted in. */
  function Roll(w: Option<Window>, now: int, span: int): (w': Window)
  {
    if w.None? || now - w.value.start >= span then Window(now, 0, 0) else w.value
  }

  /** Unsigned 64-bit addition that stops at the top. */
  function Saturating(a: nat, b: nat): (r: nat)
  {
    if a + b > U64_MAX then U64_MAX else a + b
  }

  function Count(w: Window, r: Request): (w': Window)
  {
    match r
    case JoinAttempt => w.(joins := w.joins + 1)
    case Inbound(bytes) => w.(bytes := Saturating(w.bytes, bytes))
  }

  predicate Within(l: Limits, w: Window, r: Request)
  {
    match r
    case JoinAttempt => w.joins <= l.maxJoins
    case Inbound(_) => w.bytes <= l.maxBytes
  }

  type Windows = map<Ip, Window>

  function WindowOf(ws: Windows, ip: Ip): (w: Option<Window>)
  {
    if ip in ws then Some(ws[ip]) else None
  }

  datatype Event = Event(ip: Ip, now: int, request: Request)

  function Next(l: Limits, ws: Windows, e: Event): (ws': Windows)
  {
    ws[e.ip := Count(Roll(WindowOf(ws, e.ip), e.now, l.span), e.request)]
  }

  predicate Admits(l: Limits, ws: Windows, e: Event)
  {
    Within(l, Next(l, ws, e)[e.ip], e.request)
  }

  predicate Forward(events: seq<Event>)
  {
    forall i, j :: 0 <= i < j < |events| ==> events[i].now <= events[j].now
  }

  function Weight(r: Request): (n: nat)
  {
    match r
    case JoinAttempt => 1
    case Inbound(bytes) => bytes
  }

  /** What the limiter lets through for one address and one kind of request, in a time interval. */
  function Admitted(l: Limits, ws: Windows, events: seq<Event>, ip: Ip, joins: bool, from: int, until: int): (n: nat)
    decreases |events|
  {
    if events == [] then 0
    else
      var e := events[0];
      (if e.ip == ip && e.request.JoinAttempt? == joins && from <= e.now < until && Admits(l, ws, e)
       then Weight(e.request) else 0)
      + Admitted(l, Next(l, ws, e), events[1..], ip, joins, from, until)
  }

  function After(l: Limits, ws: Windows, events: seq<Event>): (ws': Windows)
    decreases |events|
  {
    if events == [] then ws else After(l, Next(l, ws, events[0]), events[1..])
  }

  // ---- Addresses do not affect each other ----

  function Only(events: seq<Event>, ip: Ip): (own: seq<Event>)
    decreases |events|
  {
    if events == [] then [] else (if events[0].ip == ip then [events[0]] else []) + Only(events[1..], ip)
  }

  /** What an address is granted, and the window it is left with, depend on its own requests alone. */
  lemma {:induction false} AddressesIndependent(l: Limits, ws: Windows, vs: Windows, events: seq<Event>, ip: Ip,
                                                joins: bool, from: int, until: int)
    requires WindowOf(ws, ip) == WindowOf(vs, ip)
    ensures WindowOf(After(l, ws, events), ip) == WindowOf(After(l, vs, Only(events, ip)), ip)
    ensures Admitted(l, ws, events, ip, joins, from, until) == Admitted(l, vs, Only(events, ip), ip, joins, from, until)
    decreases |events|
  {
    if events != [] {
      var e, rest := events[0], events[1..];
      if e.ip == ip {
        assert ([e] + Only(rest, ip))[1..] == Only(rest, ip);
        AddressesIndependent(l, Next(l, ws, e), Next(l, vs, e), rest, ip, joins, from, until);
      } else {
        assert [] + Only(rest, ip) == Only(rest, ip);
        AddressesIndependent(l, Next(l, ws, e), vs, rest, ip, joins, from, until);
      }
    }
  }

  // ---- Budgets ----

  function Cap(l: Limits, joins: bool): (n: nat)
  {
    if joins then l.maxJoins else l.maxBytes
  }

  /** Budget of the current window already counted. */
  function Used(w: Window, joins: bool): (n: nat)
  {
    if joins then w.joins else w.bytes
  }

  /** The saturating byte counter can tell the budget from the top of its range. */
  predicate Countable(l: Limits, joins: bool)
  {
    joins || l.maxBytes < U64_MAX
  }

  function Left(l: Limits, w: Option<Window>, joins: bool): (n: nat)
  {
    if w.None? then Cap(l, joins)
    else if Used(w.value, joins) >= Cap(l, joins) then 0 else Cap(l, joins) - Used(w.value, joins)
  }

  /** What a request is granted comes out of what the window has left. */
  lemma {:induction false} GrantIsSpent(l: Limits, ws: Windows, e: Event, joins: bool)
    requires ValidLimits(l) && Countable(l, joins)
    ensures var opens := e.ip !in ws || e.now - ws[e.ip].start >= l.span;
            (if e.request.JoinAttempt? == joins && Admits(l, ws, e) then Weight(e.request) else 0)
            + Left(l, WindowOf(Next(l, ws, e), e.ip), joins)
            <= if opens then Cap(l, joins) else Left(l, WindowOf(ws, e.ip), joins)
  {
  }

  /** No request in the run opens a new window for the address. */
  predicate SameWindow(l: Limits, ws: Windows, events: seq<Event>, ip: Ip)
  {
    ip in ws && forall e :: e in events && e.ip == ip ==> e.now - ws[ip].start < l.span
  }

  /** Within one window an address is granted at most what its budget has left. */
  lemma {:induction false} OneWindow(l: Limits, ws: Windows, events: seq<Event>, ip: Ip, joins: bool, from: int,
                                     until: int)
    requires ValidLimits(l) && Countable(l, joins) && SameWindow(l, ws, events, ip)
    ensures Admitted(l, ws, events, ip, joins, from, until) <= Left(l, WindowOf(ws, ip), joins)
    decreases |events|
  {
    if events != [] {
      var e := events[0];
      assert e in events;
      GrantIsSpent(l, ws, e, joins);
      OneWindow(l, Next(l, ws, e), events[1..], ip, joins, from, until);
    }
  }

  /** Every request is at `t` or later. */
  predicate NotBefore(events: seq<Event>, t: int)
  {
    forall e :: e in events ==> t <= e.now
  }

  lemma {:induction false} NothingAfter(l: Limits, ws: Windows, events: seq<Event>, ip: Ip, joins: bool, from: int,
                                        until: int)
    requires NotBefore(events, until)
    ensures Admitted(l, ws, events, ip, joins, from, until) == 0
    decreases |events|
  {
    if events != [] {
      assert events[0] in events;
      NothingAfter(l, Next(l, ws, events[0]), events[1..], ip, joins, from, until);
    }
  }

  lemma {:induction false} ForwardTail(events: seq<Event>)
    requires Forward(events) && events != []
    ensures Forward(events[1..]) && NotBefore(events[1..], events[0].now)
  {
  }

  /** A window opened inside the interval outlasts it. */
  lemma {:induction false} OpenedInside(l: Limits, ws: Windows, events: seq<Event>, ip: Ip, joins: bool, from: int)
    requires ValidLimits(l) && Countable(l, joins) && Forward(events) && ip in ws && from <= ws[ip].start
    ensures Admitted(l, ws, events, ip, joins, from, from + l.span) <= Left(l, WindowOf(ws, ip), joins)
    decreases |events|
  {
    if events != [] {
      var e := events[0];
      ForwardTail(events);
      if e.ip == ip && e.now - ws[ip].start >= l.span {
        assert NotBefore(events, from + l.span);
        NothingAfter(l, ws, events, ip, joins, from, from + l.span);
      } else {
        GrantIsSpent(l, ws, e, joins);
        OpenedInside(l, Next(l, ws, e), events[1..], ip, joins, from);
      }
    }
  }

  lemma {:induction false} StartedInside(l: Limits, ws: Windows, events: seq<Event>, ip: Ip, joins: bool, from: int)
    requires ValidLimits(l) && Countable(l, joins) && Forward(events) && NotBefore(events, from)
    ensures Admitted(l, ws, events, ip, joins, from, from + l.span) <= Left(l, WindowOf(ws, ip), joins) + Cap(l, joins)
    decreases |events|
  {
    if events != [] {
      var e := events[0];
      ForwardTail(events);
      assert e in events;
      GrantIsSpent(l, ws, e, joins);
      var ws' := Next(l, ws, e);
      if e.ip == ip && (ip !in ws || e.now - ws[ip].start >= l.span) {
        OpenedInside(l, ws', events[1..], ip, joins, from);
      } else {
        StartedInside(l, ws', events[1..], ip, joins, from);
      }
    }
  }

  /** In any interval as long as a window an address is granted at most twice the budget. */
  lemma {:induction false} TwiceInAnyInterval(l: Limits, ws: Windows, events: seq<Event>, ip: Ip, joins: bool,
                                              from: int)
    requires ValidLimits(l) && Countable(l, joins) && Forward(events)
    ensures Admitted(l, ws, events, ip, joins, from, from + l.span) <= 2 * Cap(l, joins)
    decreases |events|
  {
    if events != [] {
      ForwardTail(events);
      if events[0].now < from {
        TwiceInAnyInterval(l, Next(l, ws, events[0]), events[1..], ip, joins, from);
      } else {
        assert NotBefore(events, from);
        StartedInside(l, ws, events, ip, joins, from);
      }
    }
  }

  /** Whether the byte budget binds in every window. */
  ghost predicate ByteBudgetHolds(l: Limits)
  {
    forall ws, events, ip, from, until :: SameWindow(l, ws, events, ip) ==>
      Admitted(l, ws, events, ip, false, from, until) <= Left(l, WindowOf(ws, ip), false)
  }

  /** `n` frames of one size from one address at one time. */
  function Frames(ip: Ip, t: int, size: nat, n: nat): (events: seq<Event>)
  {
    seq(n, i => Event(ip, t, Inbound(size)))
  }

  /** A counter that stops at the budget lets everything through. */
  lemma {:induction false} SaturatedGrantsAll(l: Limits, ws: Windows, ip: Ip, t: int, size: nat, n: nat)
    requires ValidLimits(l) && l.maxBytes == U64_MAX
    ensures Admitted(l, ws, Frames(ip, t, size, n), ip, false, t, t + 1) == n * size
    decreases n
  {
    if n > 0 {
      var e := Event(ip, t, Inbound(size));
      assert Frames(ip, t, size, n)[1..] == Frames(ip, t, size, n - 1);
      SaturatedGrantsAll(l, Next(l, ws, e), ip, t, size, n - 1);
      assert n * size == (n - 1) * size + size;
    }
  }

  /** With the budget at the top of the counter's range, frames of any size exceed it in one window once there are
      enough of them. */
  lemma {:induction false} SaturatedBudgetFails(l: Limits, ip: Ip, size: nat, n: nat)
    requires ValidLimits(l) && l.span > 0 && l.maxBytes == U64_MAX && n * size > U64_MAX
    ensures var ws, events := map[ip := Window(0, 0, 0)], Frames(ip, 0, size, n);
            SameWindow(l, ws, events, ip)
            && Admitted(l, ws, events, ip, false, 0, 1) == n * size > Left(l, WindowOf(ws, ip), false)
  {
    SaturatedGrantsAll(l, map[ip := Window(0, 0, 0)], ip, 0, size, n);
  }

  /** The byte budget binds exactly when it lies below the top of the counter's range. */
  lemma {:induction false} ByteBudgetExact(l: Limits)
    requires ValidLimits(l) && l.span > 0
    ensures ByteBudgetHolds(l) <==> l.maxBytes < U64_MAX
  {
    if l.maxBytes < U64_MAX {
      forall ws, events, ip, from, until | SameWindow(l, ws, events, ip)
        ensures Admitted(l, ws, events, ip, false, from, until) <= Left(l, WindowOf(ws, ip), false)
      {
        OneWindow(l, ws, events, ip, false, from, until);
      }
    } else {
      SaturatedBudgetFails(l, "", 1, U64_MAX + 1);
    }
  }

  // ---- The attempt counter is 32 bits wide ----

  /** The counter as it is stored: attempts modulo 2^32. */
  function Narrow(w: Window): (w': Window)
  {
    w.(joins := w.joins % U32_SIZE)
  }

  function NextNarrow(l: Limits, ws: Windows, e: Event): (ws': Windows)
  {
    ws[e.ip := Narrow(Count(Roll(WindowOf(ws, e.ip), e.now, l.span), e.request))]
  }

  predicate AdmitsNarrow(l: Limits, ws: Windows, e: Event)
  {
    Within(l, NextNarrow(l, ws, e)[e.ip], e.request)
  }

  function AdmittedNarrow(l: Limits, ws: Windows, events: seq<Event>, ip: Ip, joins: bool, from: int, until: int):
    (n: nat)
    decreases |events|
  {
    if events == [] then 0
    else
      var e := events[0];
      (if e.ip == ip && e.request.JoinAttempt? == joins && from <= e.now < until && AdmitsNarrow(l, ws, e)
       then Weight(e.request) else 0)
      + AdmittedNarrow(l, NextNarrow(l, ws, e), events[1..], ip, joins, from, until)
  }

  /** `vs` stores for this address what `ws` counts. */
  predicate Stores(ws: Windows, vs: Windows, ip: Ip)
  {
    (ip in vs <==> ip in ws) && (ip in ws ==> vs[ip] == Narrow(ws[ip]))
  }

  /** One request: the stored counter follows the unbounded one, lets through whatever that one lets through, and lets
      through more exactly when the attempt's number is past 2^32 and its remainder within the budget. */
  lemma {:induction false} StoredStep(l: Limits, ws: Windows, vs: Windows, e: Event, ip: Ip)
    requires ValidLimits(l) && Stores(ws, vs, ip)
    ensures Stores(Next(l, ws, e), NextNarrow(l, vs, e), ip)
    ensures e.ip == ip ==>
              var k := Next(l, ws, e)[ip].joins;
              && (Admits(l, ws, e) ==> AdmitsNarrow(l, vs, e))
              && (AdmitsNarrow(l, vs, e) && !Admits(l, ws, e)
                  <==> e.request.JoinAttempt? && k >= U32_SIZE && k % U32_SIZE <= l.maxJoins)
  {
  }

  /** The two limiters after the same requests. */
  function AfterNarrow(l: Limits, ws: Windows, events: seq<Event>): (ws': Windows)
    decreases |events|
  {
    if events == [] then ws else AfterNarrow(l, NextNarrow(l, ws, events[0]), events[1..])
  }

  lemma {:induction false} RunStores(l: Limits, ws: Windows, vs: Windows, events: seq<Event>, ip: Ip)
    requires ValidLimits(l) && Stores(ws, vs, ip)
    ensures Stores(After(l, ws, events), AfterNarrow(l, vs, events), ip)
    decreases |events|
  {
    if events != [] {
      StoredStep(l, ws, vs, events[0], ip);
      RunStores(l, Next(l, ws, events[0]), NextNarrow(l, vs, events[0]), events[1..], ip);
    }
  }

  /** After any requests, with `k` the true number of the next attempt in its window: the stored counter decides it
      differently exactly when it is past 2^32 and its remainder is within the budget, and then it lets it through. */
  lemma {:induction false} NarrowDiffersAtWrap(l: Limits, events: seq<Event>, e: Event)
    requires ValidLimits(l) && e.request.JoinAttempt?
    ensures var ws, vs := After(l, map[], events), AfterNarrow(l, map[], events);
            var k := Next(l, ws, e)[e.ip].joins;
            && (Admits(l, ws, e) ==> AdmitsNarrow(l, vs, e))
            && (AdmitsNarrow(l, vs, e) && !Admits(l, ws, e) <==> k >= U32_SIZE && k % U32_SIZE <= l.maxJoins)
  {
    RunStores(l, map[], map[], events, e.ip);
    StoredStep(l, After(l, map[], events), AfterNarrow(l, map[], events), e, e.ip);
  }

  /** Some attempt of the address is the 2^32nd of its window, or a later one. */
  predicate Wraps(l: Limits, ws: Windows, events: seq<Event>, ip: Ip)
    decreases |events|
  {
    events != []
    && ((events[0].ip == ip && events[0].request.JoinAttempt? && Next(l, ws, events[0])[ip].joins >= U32_SIZE)
        || Wraps(l, Next(l, ws, events[0]), events[1..], ip))
  }

  lemma {:induction false} StoredGrantsMore(l: Limits, ws: Windows, vs: Windows, events: seq<Event>, ip: Ip,
                                            joins: bool, from: int, until: int)
    requires ValidLimits(l) && Stores(ws, vs, ip)
    ensures Admitted(l, ws, events, ip, joins, from, until) <= AdmittedNarrow(l, vs, events, ip, joins, from, until)
    decreases |events|
  {
    if events != [] {
      var e := events[0];
      StoredStep(l, ws, vs, e, ip);
      StoredGrantsMore(l, Next(l, ws, e), NextNarrow(l, vs, e), events[1..], ip, joins, from, until);
    }
  }

  predicate BelowWrap(ws: Windows, ip: Ip)
  {
    ip in ws ==> ws[ip].joins < U32_SIZE
  }

  /** While no window of the address sees 2^32 attempts the stored limiter grants it exactly what the unbounded one
      grants, in any interval; bytes are granted alike in any case. */
  lemma {:induction false} NarrowAgrees(l: Limits, ws: Windows, vs: Windows, events: seq<Event>, ip: Ip, joins: bool,
                                        from: int, until: int)
    requires ValidLimits(l) && Stores(ws, vs, ip) && (joins ==> BelowWrap(ws, ip) && !Wraps(l, ws, events, ip))
    ensures AdmittedNarrow(l, vs, events, ip, joins, from, until) == Admitted(l, ws, events, ip, joins, from, until)
    decreases |events|
  {
    if events != [] {
      var e := events[0];
      StoredStep(l, ws, vs, e, ip);
      NarrowAgrees(l, Next(l, ws, e), NextNarrow(l, vs, e), events[1..], ip, joins, from, until);
    }
  }

  /** All requests of the address fall in the interval. */
  predicate Covers(events: seq<Event>, ip: Ip, from: int, until: int)
  {
    forall e :: e in events && e.ip == ip ==> from <= e.now < until
  }

  /** Over a whole run the stored limiter grants an address as many attempts as the unbounded one exactly when none of
      its windows sees 2^32 attempts; else it grants more. */
  lemma {:induction false} NarrowAgreesExactly(l: Limits, ws: Windows, vs: Windows, events: seq<Event>, ip: Ip,
                                               from: int, until: int)
    requires ValidLimits(l) && Stores(ws, vs, ip) && BelowWrap(ws, ip) && Covers(events, ip, from, until)
    ensures var stored, counted := AdmittedNarrow(l, vs, events, ip, true, from, until),
                                   Admitted(l, ws, events, ip, true, from, until);
            counted <= stored && (stored == counted <==> !Wraps(l, ws, events, ip))
    decreases |events|
  {
    if events != [] {
      var e, ws', vs' := events[0], Next(l, ws, events[0]), NextNarrow(l, vs, events[0]);
      assert e in events;
      StoredStep(l, ws, vs, e, ip);
      if e.ip == ip && e.request.JoinAttempt? && ws'[ip].joins >= U32_SIZE {
        assert ws'[ip].joins == U32_SIZE;
        StoredGrantsMore(l, ws', vs', events[1..], ip, true, from, until);
      } else {
        NarrowAgreesExactly(l, ws', vs', events[1..], ip, from, until);
      }
    }
  }

  /** The stored limiter grants at most twice the budget in any interval as long as a window, as long as no window of
      the address sees 2^32 attempts. */
  lemma {:induction false} StoredTwiceInAnyInterval(l: Limits, events: seq<Event>, ip: Ip, joins: bool, from: int)
    requires ValidLimits(l) && Countable(l, joins) && Forward(events) && (joins ==> !Wraps(l, map[], events, ip))
    ensures AdmittedNarrow(l, map[], events, ip, joins, from, from + l.span) <= 2 * Cap(l, joins)
  {
    NarrowAgrees(l, map[], map[], events, ip, joins, from, from + l.span);
    TwiceInAnyInterval(l, map[], events, ip, joins, from);
  }

  // ---- How many attempts one window really grants ----

  /** How many of the attempts numbered 1 to `n` have a number that modulo 2^32 is within the budget. */
  function Granted(cap: nat, n: nat): (granted: nat)
  {
    if n == 0 then 0 else Granted(cap, n - 1) + if n % U32_SIZE <= cap then 1 else 0
  }

  /** The budget once in every 2^32 attempts and one more for every wrap. */
  lemma {:induction false} GrantedClosed(cap: nat, n: nat)
    requires cap < U32_SIZE
    ensures Granted(cap, n) == n / U32_SIZE * (cap + 1) + if n % U32_SIZE < cap then n % U32_SIZE else cap
    decreases n
  {
    if n > 0 {
      GrantedClosed(cap, n - 1);
      var q, r := (n - 1) / U32_SIZE, (n - 1) % U32_SIZE;
      if r == U32_SIZE - 1 {
        assert n / U32_SIZE == q + 1 && n % U32_SIZE == 0;
        assert (q + 1) * (cap + 1) == q * (cap + 1) + cap + 1;
      } else {
        assert n / U32_SIZE == q && n % U32_SIZE == r + 1;
      }
    }
  }

  lemma {:induction false} GrantedWithin(cap: nat, n: nat)
    requires cap < U32_SIZE
    ensures Granted(cap, n) <= cap <==> n < U32_SIZE
  {
    GrantedClosed(cap, n);
    var q := n / U32_SIZE;
    if n >= U32_SIZE {
      assert q >= 1;
      assert q * (cap + 1) == (q - 1) * (cap + 1) + cap + 1 && (q - 1) * (cap + 1) >= 0;
    } else {
      assert q == 0;
    }
  }

  /** Attempts of the address. */
  function Tries(events: seq<Event>, ip: Ip): (n: nat)
    decreases |events|
  {
    if events == [] then 0
    else (if events[0].ip == ip && events[0].request.JoinAttempt? then 1 else 0) + Tries(events[1..], ip)
  }

  /** One request inside a window in which `c` attempts were made before. */
  lemma {:induction false} WindowStep(l: Limits, vs: Windows, e: Event, ip: Ip, c: nat)
    requires ValidLimits(l) && ip in vs && vs[ip].joins == c % U32_SIZE
    requires e.ip == ip ==> e.now - vs[ip].start < l.span
    ensures var attempt := e.ip == ip && e.request.JoinAttempt?;
            var vs' := NextNarrow(l, vs, e);
            && ip in vs' && vs'[ip].start == vs[ip].start
            && vs'[ip].joins == (if attempt then c + 1 else c) % U32_SIZE
            && (attempt ==> (AdmitsNarrow(l, vs, e) <==> (c + 1) % U32_SIZE <= l.maxJoins))
  {
    assert (c % U32_SIZE) % U32_SIZE == c % U32_SIZE;
    assert (c % U32_SIZE + 1) % U32_SIZE == (c + 1) % U32_SIZE;
  }

  lemma {:induction false} WindowGrants(l: Limits, vs: Windows, events: seq<Event>, ip: Ip, c: nat, from: int,
                                        until: int)
    requires ValidLimits(l) && SameWindow(l, vs, events, ip) && vs[ip].joins == c % U32_SIZE
    requires Covers(events, ip, from, until)
    ensures Granted(l.maxJoins, c) + AdmittedNarrow(l, vs, events, ip, true, from, until)
            == Granted(l.maxJoins, c + Tries(events, ip))
    decreases |events|
  {
    if events != [] {
      var e := events[0];
      assert e in events;
      WindowStep(l, vs, e, ip, c);
      WindowGrants(l, NextNarrow(l, vs, e), events[1..], ip, if e.ip == ip && e.request.JoinAttempt? then c + 1 else c,
                   from, until);
    }
  }

  /** The run starts with a request that opens a window of the address, and stays inside that window. */
  predicate WholeWindow(l: Limits, ws: Windows, events: seq<Event>, ip: Ip)
  {
    && events != [] && events[0].ip == ip
    && (ip in ws ==> events[0].now - ws[ip].start >= l.span)
    && Covers(events, ip, events[0].now, events[0].now + l.span)
  }

  /** What one window grants an address that makes `n` attempts in it, whatever else goes on: the attempts whose number
      modulo 2^32 is within the budget. So the budget binds in the window exactly when `n` is below 2^32. */
  lemma {:induction false} AttemptBudgetExact(l: Limits, ws: Windows, events: seq<Event>, ip: Ip)
    requires ValidLimits(l) && WholeWindow(l, ws, events, ip)
    ensures var t, n := events[0].now, Tries(events, ip);
            var granted := AdmittedNarrow(l, ws, events, ip, true, t, t + l.span);
            granted == Granted(l.maxJoins, n) && (granted <= l.maxJoins <==> n < U32_SIZE)
  {
    var t := events[0].now;
    var vs := ws[ip := Window(t, 0, 0)];
    assert events[0] in events;
    assert NextNarrow(l, vs, events[0]) == NextNarrow(l, ws, events[0]);
    WindowGrants(l, vs, events, ip, 0, t, t + l.span);
    GrantedWithin(l.maxJoins, Tries(events, ip));
  }

  /** `n` attempts of one address at one time. */
  function Burst(ip: Ip, t: int, n: nat): (events: seq<Event>)
  {
    seq(n, i => Event(ip, t, JoinAttempt))
  }

  lemma {:induction false} BurstTries(ip: Ip, t: int, n: nat)
    ensures Tries(Burst(ip, t, n), ip) == n
    decreases n
  {
    if n > 0 {
      assert Burst(ip, t, n)[1..] == Burst(ip, t, n - 1);
      BurstTries(ip, t, n - 1);
    }
  }

  /** The attempt that wraps the counter is one too many: 2^32 attempts in one window of a fresh limiter are granted
      the budget and one more. */
  lemma {:induction false} WrappedBudgetFails(l: Limits, ip: Ip, t: int)
    requires ValidLimits(l) && l.span > 0
    ensures AdmittedNarrow(l, map[], Burst(ip, t, U32_SIZE), ip, true, t, t + l.span) == l.maxJoins + 1
  {
    BurstTries(ip, t, U32_SIZE);
    GrantedClosed(l.maxJoins, U32_SIZE);
    AttemptBudgetExact(l, map[], Burst(ip, t, U32_SIZE), ip);
  }

  // ---- Pairing attempts ----

  /** The pairing relay's own counter: a refused attempt is not counted. */
  datatype Rate = Rate(start: int, attempts: nat)

  function RollRate(r: Option<Rate>, now: int, span: int): (r': Rate)
  {
    if r.None? || now - r.value.start >= span then Rate(now, 0) else r.value
  }

  predicate AllowsAttempt(r: Option<Rate>, now: int, span: int, cap: nat)
  {
    RollRate(r, now, span).attempts < cap
  }

  function CountAttempt(r: Option<Rate>, now: int, span: int, cap: nat): (r': Rate)
  {
    var rolled := RollRate(r, now, span);
    if rolled.attempts < cap then rolled.(attempts := rolled.attempts + 1) else rolled
  }

  /** The same window, with refused attempts left out of the count. */
  predicate Tracks(r: Option<Rate>, w: Option<Window>, cap: nat)
  {
    && (r.Some? <==> w.Some?)
    && (r.Some? ==>
          r.value.start == w.value.start && r.value.attempts == if w.value.joins < cap then w.value.joins else cap)
  }

  /** Not counting refused attempts makes the same decisions as counting all of them. */
  lemma {:induction false} PairingLimiterAgrees(l: Limits, r: Option<Rate>, ws: Windows, ip: Ip, now: int)
    requires Tracks(r, WindowOf(ws, ip), l.maxJoins)
    ensures var e := Event(ip, now, JoinAttempt);
            && (AllowsAttempt(r, now, l.span, l.maxJoins) <==> Admits(l, ws, e))
            && Tracks(Some(CountAttempt(r, now, l.span, l.maxJoins)), WindowOf(Next(l, ws, e), ip), l.maxJoins)
  {
  }

  function PairAdmitted(l: Limits, r: Option<Rate>, times: seq<int>, from: int, until: int): (n: nat)
    decreases |times|
  {
    if times == [] then 0
    else
      (if from <= times[0] < until && AllowsAttempt(r, times[0], l.span, l.maxJoins) then 1 else 0)
      + PairAdmitted(l, Some(CountAttempt(r, times[0], l.span, l.maxJoins)), times[1..], from, until)
  }

  function Attempts(ip: Ip, times: seq<int>): (events: seq<Event>)
    ensures |events| == |times|
  {
    seq(|times|, i requires 0 <= i < |times| => Event(ip, times[i], JoinAttempt))
  }

  lemma {:induction false} PairAdmittedIsAdmitted(l: Limits, r: Option<Rate>, ws: Windows, ip: Ip, times: seq<int>,
                                                  from: int, until: int)
    requires Tracks(r, WindowOf(ws, ip), l.maxJoins)
    ensures PairAdmitted(l, r, times, from, until) == Admitted(l, ws, Attempts(ip, times), ip, true, from, until)
    decreases |times|
  {
    if times != [] {
      var e := Event(ip, times[0], JoinAttempt);
      PairingLimiterAgrees(l, r, ws, ip, times[0]);
      assert Attempts(ip, times)[1..] == Attempts(ip, times[1..]);
      PairAdmittedIsAdmitted(l, Some(CountAttempt(r, times[0], l.span, l.maxJoins)), Next(l, ws, e), ip, times[1..],
        from, until);
    }
  }

  /** Pairing attempts of one address: at most twice the budget in any interval as long as a window. */
  lemma {:induction false} PairAttemptsBounded(l: Limits, times: seq<int>, from: int)
    requires ValidLimits(l) && forall i, j :: 0 <= i < j < |times| ==> times[i] <= times[j]
    ensures PairAdmitted(l, None, times, from, from + l.span) <= 2 * l.maxJoins
  {
    PairAdmittedIsAdmitted(l, None, map[], "", times, from, from + l.span);
    TwiceInAnyInterval(l, map[], Attempts("", times), "", true, from);
  }

  /** The limiter as the program runs it. */
  class IpRateLimiter {
    const l: Limits
    var windows: Windows

    method Enter(ip: Ip, now: int)
      modifies this
      ensures windows == old(windows)[ip := Roll(WindowOf(old(windows), ip), now, l.span)]
    {
      if ip !in windows {
        windows := windows[ip := Window(now, 0, 0)];
      }
      if now - windows[ip].start >= l.span {
        windows := windows[ip := Window(now, 0, 0)];
      }
      assert windows == old(windows)[ip := windows[ip]];
    }

    method CheckJoin(ip: Ip, now: int) returns (ok: bool)
      modifies this
      ensures windows == NextNarrow(l, old(windows), Event(ip, now, JoinAttempt))
      ensures ok <==> AdmitsNarrow(l, old(windows), Event(ip, now, JoinAttempt))
    {
      Enter(ip, now);
      windows := windows[ip := windows[ip].(joins := (windows[ip].joins + 1) % U32_SIZE)];
      ok := windows[ip].joins <= l.maxJoins;
    }

    method AddBytes(ip: Ip, bytes: nat, now: int) returns (ok: bool)
      requires forall x :: x in windows ==> windows[x].joins < U32_SIZE
      modifies this
      ensures windows == NextNarrow(l, old(windows), Event(ip, now, Inbound(bytes)))
      ensures ok <==> AdmitsNarrow(l, old(windows), Event(ip, now, Inbound(bytes)))
    {
      Enter(ip, now);
      windows := windows[ip := windows[ip].(bytes := Saturating(windows[ip].bytes, bytes))];
      ok := windows[ip].bytes <= l.maxBytes;
    }
  }
}
