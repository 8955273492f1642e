/** Resets and confirmations over whole runs: what an interrupted reset leaves behind, exactly when a confirmation
    reports success, and exactly how long what it stored keeps loading. */
module PairingTheorems {
  import opened Prelude
  import opened Pairing
  import C = Crypto

  // ---- Resets ----

  /** This step is a reset's rename. */
  predicate Renames(s: State, e: Event)
  {
    e == AdvanceReset(true) && s.reset.FileSynced?
  }

  predicate RenamedIn(cfg: Config, s: State, events: seq<Event>)
    requires Legal(cfg, s, events)
    decreases |events|
  {
    events != [] && (Renames(s, events[0]) || RenamedIn(cfg, Step(cfg, s, events[0]), events[1..]))
  }

  /** A reset from `before` to `next` that has renamed or not; what is under way, if anything, is this reset. */
  predicate Replacing(before: C.Identity, next: C.Identity, s: State, renamed: bool)
  {
    && s.disk.identity == Some(if renamed then next else before)
    && match s.reset
       case NoReset => true
       case TempWritten(x) => x == next && !renamed
       case FileSynced(x) => x == next && !renamed
       case IdentityRenamed(x) => x == next && renamed
       case DirectorySynced(x) => x == next && renamed
  }

  lemma {:induction false} RunReplaces(cfg: Config, s: State, events: seq<Event>, before: C.Identity,
                                       next: C.Identity, renamed: bool)
    requires Replacing(before, next, s, renamed) && Legal(cfg, s, events)
    requires forall e :: e in events ==> !e.BeginReset?
    ensures Replacing(before, next, Run(cfg, s, events), renamed || RenamedIn(cfg, s, events))
    decreases |events|
  {
    if events != [] {
      assert events[0] in events;
      RunReplaces(cfg, Step(cfg, s, events[0]), events[1..], before, next, renamed || Renames(s, events[0]));
    }
  }

  /** This step writes a pairing or removes it: a store, or the clean-up that ends a reset. */
  predicate Touches(s: State, e: Event)
  {
    (e.Store? && !e.write.FailedOld?) || (e == AdvanceReset(true) && s.reset.DirectorySynced?)
  }

  predicate TouchedIn(cfg: Config, s: State, events: seq<Event>)
    requires Legal(cfg, s, events)
    decreases |events|
  {
    events != [] && (Touches(s, events[0]) || TouchedIn(cfg, Step(cfg, s, events[0]), events[1..]))
  }

  lemma {:induction false} UntouchedStays(cfg: Config, s: State, events: seq<Event>)
    requires Legal(cfg, s, events) && !TouchedIn(cfg, s, events)
    ensures Run(cfg, s, events).disk.pairing == s.disk.pairing
    decreases |events|
  {
    if events != [] {
      UntouchedStays(cfg, Step(cfg, s, events[0]), events[1..]);
    }
  }

  /** A reset is atomic. However confirmations, stores, failures and crashes interleave with it, until another reset
      begins the identity on disk is the old one or the new one, whole, and it is the new one exactly when the rename
      has happened: never at the first two checkpoints, always at the last two. The pairing file is untouched unless a
      record was stored or the reset got to its clean-up. */
  lemma {:induction false} ResetIsAtomic(cfg: Config, s: State, sign: Bytes, dh: Bytes, events: seq<Event>)
    requires s.disk.identity.Some? && s.reset.NoReset? && Generation(s.disk) < U64_MAX
    requires Legal(cfg, Step(cfg, s, BeginReset(sign, dh)), events) && forall e :: e in events ==> !e.BeginReset?
    ensures var begun := Step(cfg, s, BeginReset(sign, dh));
            var next := C.Identity(sign, dh, Generation(s.disk) + 1);
            && Replacing(s.disk.identity.value, next, Run(cfg, begun, events), RenamedIn(cfg, begun, events))
            && (!TouchedIn(cfg, begun, events) ==> Run(cfg, begun, events).disk.pairing == s.disk.pairing)
  {
    var next := C.Identity(sign, dh, Generation(s.disk) + 1);
    var begun := Step(cfg, s, BeginReset(sign, dh));
    RunReplaces(cfg, begun, events, s.disk.identity.value, next, false);
    if !TouchedIn(cfg, begun, events) {
      UntouchedStays(cfg, begun, events);
    }
  }

  /** The generation moves exactly when a reset renames. */
  lemma {:induction false} GenerationMoves(cfg: Config, s: State, events: seq<Event>)
    requires Inv(cfg, s) && s.disk.identity.Some? && Legal(cfg, s, events)
    ensures Generation(Run(cfg, s, events).disk) == Generation(s.disk) <==> !RenamedIn(cfg, s, events)
    decreases |events|
  {
    if events != [] {
      var s1 := Step(cfg, s, events[0]);
      StepKeepsInv(cfg, s, events[0]);
      IdentityChangesWhole(cfg, s, events[0]);
      RunKeepsInv(cfg, s1, events[1..]);
      GenerationMoves(cfg, s1, events[1..]);
    }
  }

  // ---- When a confirmation reports success ----

  lemma {:induction false} PassesExactly(cfg: Config, s: State, n: nat, digits: string)
    requires Inv(cfg, s) && n in s.confirmations && s.confirmations[n].Shown? && s.disk.identity.Some?
    ensures var shown := s.confirmations[n];
            Passes(cfg, s, n, digits)
            <==> digits == SasOf(cfg, shown.nonce, shown.candidate) && shown.candidate.generation == Generation(s.disk)
  {
  }

  /** Nothing in the run is about confirmation `n`, and the process does not stop. */
  predicate Leaves(events: seq<Event>, n: nat)
  {
    forall e :: e in events ==> !e.Crash? && (e.Show? || e.Confirm? || e.Store? ==> e.n != n)
  }

  lemma {:induction false} LeftAlone(cfg: Config, s: State, events: seq<Event>, n: nat)
    requires Legal(cfg, s, events) && Leaves(events, n)
    ensures var s' := Run(cfg, s, events);
            && (n in s'.confirmations <==> n in s.confirmations)
            && (n in s.confirmations ==> s'.confirmations[n] == s.confirmations[n])
    decreases |events|
  {
    if events != [] {
      assert events[0] in events;
      LeftAlone(cfg, Step(cfg, s, events[0]), events[1..], n);
    }
  }

  /** The state in which the digits are typed in. */
  function Awaiting(cfg: Config, s: State, n: nat, c: Candidate, nonce: Bytes, mid: seq<Event>): (s': State)
    requires Enabled(cfg, s, Show(n, c, nonce)) && Legal(cfg, Step(cfg, s, Show(n, c, nonce)), mid)
  {
    Run(cfg, Step(cfg, s, Show(n, c, nonce)), mid)
  }

  lemma {:induction false} AwaitingFacts(cfg: Config, s: State, n: nat, c: Candidate, nonce: Bytes, mid: seq<Event>)
    requires Inv(cfg, s) && Enabled(cfg, s, Show(n, c, nonce)) && Legal(cfg, Step(cfg, s, Show(n, c, nonce)), mid)
    requires Leaves(mid, n)
    ensures var s1 := Awaiting(cfg, s, n, c, nonce, mid);
            && Inv(cfg, s1) && s1.disk.identity.Some?
            && n in s1.confirmations && s1.confirmations[n] == Shown(c, nonce)
            && (c.generation == Generation(s1.disk) <==> !RenamedIn(cfg, Step(cfg, s, Show(n, c, nonce)), mid))
  {
    var s0 := Step(cfg, s, Show(n, c, nonce));
    StepKeepsInv(cfg, s, Show(n, c, nonce));
    RunKeepsInv(cfg, s0, mid);
    IdentityStays(cfg, s0, mid);
    LeftAlone(cfg, s0, mid, n);
    GenerationMoves(cfg, s0, mid);
  }

  lemma {:induction false} VettedFacts(cfg: Config, s: State, n: nat, digits: string, c: Candidate, nonce: Bytes,
                                       between: seq<Event>)
    requires Inv(cfg, s) && s.disk.identity.Some? && n in s.confirmations && s.confirmations[n] == Shown(c, nonce)
    requires Legal(cfg, Step(cfg, s, Confirm(n, digits)), between) && Leaves(between, n)
    ensures var s' := Run(cfg, Step(cfg, s, Confirm(n, digits)), between);
            && Inv(cfg, s')
            && (Enabled(cfg, s', Store(n, Durable))
                <==> digits == SasOf(cfg, nonce, c) && c.generation == Generation(s.disk))
            && (Enabled(cfg, s', Store(n, Durable)) ==> s'.confirmations[n].record == RecordOf(cfg.suite, c))
            && (Generation(s'.disk) == Generation(s.disk)
                <==> !RenamedIn(cfg, Step(cfg, s, Confirm(n, digits)), between))
  {
    var s1 := Step(cfg, s, Confirm(n, digits));
    PassesExactly(cfg, s, n, digits);
    StepKeepsInv(cfg, s, Confirm(n, digits));
    RunKeepsInv(cfg, s1, between);
    LeftAlone(cfg, s1, between, n);
    GenerationMoves(cfg, s1, between);
  }

  /** Over every interleaving: a confirmation can go on to store its record and report success exactly when the digits
      match and no reset has renamed the identity between its start and its check; what it then stores loads exactly
      when none has renamed it between the check and the store either. */
  lemma {:induction false} SucceedsExactly(cfg: Config, s: State, n: nat, c: Candidate, nonce: Bytes, mid: seq<Event>,
                                           digits: string, between: seq<Event>)
    requires Inv(cfg, s) && Enabled(cfg, s, Show(n, c, nonce)) && Legal(cfg, Step(cfg, s, Show(n, c, nonce)), mid)
    requires Leaves(mid, n) && Leaves(between, n)
    requires Enabled(cfg, Awaiting(cfg, s, n, c, nonce, mid), Confirm(n, digits))
    requires Legal(cfg, Step(cfg, Awaiting(cfg, s, n, c, nonce, mid), Confirm(n, digits)), between)
    ensures var checked := Step(cfg, Awaiting(cfg, s, n, c, nonce, mid), Confirm(n, digits));
            var s' := Run(cfg, checked, between);
            && (Enabled(cfg, s', Store(n, Durable))
                <==> digits == SasOf(cfg, nonce, c) && !RenamedIn(cfg, Step(cfg, s, Show(n, c, nonce)), mid))
            && (Enabled(cfg, s', Store(n, Durable)) ==>
                  var stored := Step(cfg, s', Store(n, Durable));
                  && stored.completed == s'.completed + [RecordOf(cfg.suite, c)] && stored.disk.identity.Some?
                  && (LoadPairing(cfg.suite, cfg.debug, stored.disk) == Paired(RecordOf(cfg.suite, c))
                      <==> !RenamedIn(cfg, checked, between)))
  {
    var s1 := Awaiting(cfg, s, n, c, nonce, mid);
    AwaitingFacts(cfg, s, n, c, nonce, mid);
    VettedFacts(cfg, s1, n, digits, c, nonce, between);
    var s' := Run(cfg, Step(cfg, s1, Confirm(n, digits)), between);
    if Enabled(cfg, s', Store(n, Durable)) {
      StoredIsLoaded(cfg, s', n, Durable);
    }
  }

  // ---- How long a stored pairing keeps loading ----

  /** This step takes the loaded record away: another record is stored over it, a reset renames the identity, or a
      reset cleans up. */
  predicate Disturbs(s: State, e: Event, r: Record)
  {
    || (e.Store? && !e.write.FailedOld? && e.n in s.confirmations && s.confirmations[e.n] != Vetted(r))
    || (e == AdvanceReset(true) && (s.reset.FileSynced? || s.reset.DirectorySynced?))
  }

  predicate Loads(cfg: Config, s: State, r: Record)
  {
    s.disk.identity.Some? && LoadPairing(cfg.suite, cfg.debug, s.disk) == Paired(r)
  }

  lemma {:induction false} StepStaysLoaded(cfg: Config, s: State, e: Event, r: Record)
    requires Inv(cfg, s) && Loads(cfg, s, r) && Enabled(cfg, s, e)
    ensures Loads(cfg, Step(cfg, s, e), r) <==> !Disturbs(s, e, r)
  {
  }

  predicate LoadsThroughout(cfg: Config, s: State, events: seq<Event>, r: Record)
    requires Legal(cfg, s, events)
    decreases |events|
  {
    Loads(cfg, s, r) && (events == [] || LoadsThroughout(cfg, Step(cfg, s, events[0]), events[1..], r))
  }

  predicate Undisturbed(cfg: Config, s: State, events: seq<Event>, r: Record)
    requires Legal(cfg, s, events)
    decreases |events|
  {
    events == [] || (!Disturbs(s, events[0], r) && Undisturbed(cfg, Step(cfg, s, events[0]), events[1..], r))
  }

  lemma {:induction false} RunStaysLoaded(cfg: Config, s: State, events: seq<Event>, r: Record)
    requires Inv(cfg, s) && Loads(cfg, s, r) && Legal(cfg, s, events)
    ensures LoadsThroughout(cfg, s, events, r) <==> Undisturbed(cfg, s, events, r)
    decreases |events|
  {
    if events != [] {
      StepKeepsInv(cfg, s, events[0]);
      StepStaysLoaded(cfg, s, events[0], r);
      if Loads(cfg, Step(cfg, s, events[0]), r) {
        RunStaysLoaded(cfg, Step(cfg, s, events[0]), events[1..], r);
      }
    }
  }

  /** Over every run: what a confirmation stores loads from then on exactly when its generation is current at the store
      and no later step of the run stores another record, renames the identity or cleans up after a reset. */
  lemma {:induction false} StaysLoadedExactly(cfg: Config, s: State, n: nat, write: Commit, events: seq<Event>)
    requires Inv(cfg, s) && Enabled(cfg, s, Store(n, write)) && !write.FailedOld?
    requires Legal(cfg, Step(cfg, s, Store(n, write)), events)
    ensures var r, stored := s.confirmations[n].record, Step(cfg, s, Store(n, write));
            LoadsThroughout(cfg, stored, events, r)
            <==> r.generation == Generation(s.disk) && Undisturbed(cfg, stored, events, r)
  {
    StoredIsLoaded(cfg, s, n, write);
    StepKeepsInv(cfg, s, Store(n, write));
    var r, stored := s.confirmations[n].record, Step(cfg, s, Store(n, write));
    if Loads(cfg, stored, r) {
      RunStaysLoaded(cfg, stored, events, r);
    }
  }

  // ---- The two ways a current pairing is lost without a new reset ----

  /** Digits shown and typed in correctly at once. */
  function Vouched(cfg: Config, s: State, n: nat, c: Candidate, nonce: Bytes): (s': State)
    requires Enabled(cfg, s, Show(n, c, nonce)) && Generation(s.disk) > 0
    ensures s' == s.(confirmations := s.confirmations[n := Vetted(RecordOf(cfg.suite, c))])
  {
    Step(cfg, Step(cfg, s, Show(n, c, nonce)), Confirm(n, SasOf(cfg, nonce, c)))
  }

  lemma {:induction false} StartedLoads(cfg: Config, c: Candidate, self: C.Identity)
    requires StartedFrom(cfg, c, self) && self.generation > 0
    ensures var r := RecordOf(cfg.suite, c);
            LoadPairing(cfg.suite, cfg.debug, Disk(Some(self), Some(r))) == Paired(r)
  {
  }

  /** Paired as the identity that is on disk. */
  lemma {:induction false} VouchedPairs(cfg: Config, s: State, n: nat, c: Candidate, nonce: Bytes)
    requires Enabled(cfg, s, Show(n, c, nonce)) && Generation(s.disk) > 0
    ensures var paired := Step(cfg, Vouched(cfg, s, n, c, nonce), Store(n, Durable));
            var r := RecordOf(cfg.suite, c);
            && Loads(cfg, paired, r) && paired.completed == s.completed + [r]
            && paired.disk == s.disk.(pairing := Some(r)) && paired.reset == s.reset
            && paired.confirmations == s.confirmations - {n}
  {
    StartedLoads(cfg, c, s.disk.identity.value);
    assert s.confirmations[n := Vetted(RecordOf(cfg.suite, c))] - {n} == s.confirmations - {n};
  }

  lemma {:induction false} StaleStore(cfg: Config, s: State, n: nat, r: Record)
    requires s.disk.identity.Some? && n in s.confirmations && s.confirmations[n] == Vetted(r)
    requires r.generation < Generation(s.disk)
    ensures var lost := Step(cfg, s, Store(n, Durable));
            && lost.completed == s.completed + [r] && lost.disk.identity == s.disk.identity
            && LoadPairing(cfg.suite, cfg.debug, lost.disk) == NoPairing
  {
  }

  /** A checked confirmation is still there after a completed reset. */
  lemma {:induction false} OutlivesReset(cfg: Config, s: State, sign: Bytes, dh: Bytes, n: nat, c: Candidate,
                                         nonce: Bytes)
    requires Enabled(cfg, s, Show(n, c, nonce)) && s.reset.NoReset? && 0 < Generation(s.disk) < U64_MAX
    ensures var rotated := Step(cfg, ResetTo(cfg, Vouched(cfg, s, n, c, nonce), sign, dh, 3), AdvanceReset(true));
            && rotated.disk.identity == Some(C.Identity(sign, dh, Generation(s.disk) + 1))
            && rotated.completed == s.completed && rotated.reset == NoReset
            && rotated.confirmations == s.confirmations[n := Vetted(RecordOf(cfg.suite, c))]
  {
  }

  /** A confirmation checked before a reset and stored after it overwrites the pairing made since: both confirmations
      report success, and nothing is paired in the end. */
  lemma {:induction false} StaleStoreUnpairs(cfg: Config, s: State, sign: Bytes, dh: Bytes, c0: Candidate,
                                             nonce0: Bytes, c1: Candidate, nonce1: Bytes)
    requires s.disk.identity.Some? && s.reset.NoReset? && 0 < Generation(s.disk) < U64_MAX && s.confirmations == map[]
    requires StartedFrom(cfg, c0, s.disk.identity.value)
    requires StartedFrom(cfg, c1, C.Identity(sign, dh, Generation(s.disk) + 1))
    ensures var vetted := Vouched(cfg, s, 0, c0, nonce0);
            var rotated := Step(cfg, ResetTo(cfg, vetted, sign, dh, 3), AdvanceReset(true));
            var paired := Step(cfg, Vouched(cfg, rotated, 1, c1, nonce1), Store(1, Durable));
            var lost := Step(cfg, paired, Store(0, Durable));
            var r0, r1 := RecordOf(cfg.suite, c0), RecordOf(cfg.suite, c1);
            && Loads(cfg, paired, r1) && paired.completed == s.completed + [r1]
            && lost.completed == s.completed + [r1] + [r0] && lost.disk.identity == paired.disk.identity
            && LoadPairing(cfg.suite, cfg.debug, lost.disk) == NoPairing
  {
    var vetted := Vouched(cfg, s, 0, c0, nonce0);
    var rotated := Step(cfg, ResetTo(cfg, vetted, sign, dh, 3), AdvanceReset(true));
    OutlivesReset(cfg, s, sign, dh, 0, c0, nonce0);
    VouchedPairs(cfg, rotated, 1, c1, nonce1);
    var paired := Step(cfg, Vouched(cfg, rotated, 1, c1, nonce1), Store(1, Durable));
    StaleStore(cfg, paired, 0, RecordOf(cfg.suite, c0));
  }

  /** A pairing made between a reset's rename and its clean-up is deleted by the clean-up, although its confirmation
      reported success and it is of the current generation. */
  lemma {:induction false} CleanupUnpairs(cfg: Config, s: State, sign: Bytes, dh: Bytes, c: Candidate, nonce: Bytes)
    requires s.disk.identity.Some? && s.reset.NoReset? && Generation(s.disk) < U64_MAX && s.confirmations == map[]
    requires StartedFrom(cfg, c, C.Identity(sign, dh, Generation(s.disk) + 1))
    ensures var renamed := ResetTo(cfg, s, sign, dh, 2);
            var paired := Step(cfg, Vouched(cfg, renamed, 0, c, nonce), Store(0, Durable));
            var lost := Step(cfg, Step(cfg, paired, AdvanceReset(true)), AdvanceReset(true));
            var r := RecordOf(cfg.suite, c);
            && Loads(cfg, paired, r) && paired.completed == s.completed + [r]
            && lost.completed == paired.completed && lost.disk.identity == paired.disk.identity
            && LoadPairing(cfg.suite, cfg.debug, lost.disk) == NoPairing
  {
    VouchedPairs(cfg, ResetTo(cfg, s, sign, dh, 2), 0, c, nonce);
  }
}
