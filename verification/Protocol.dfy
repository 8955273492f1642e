/** Frame order on the wire: a client's connection states and the transition table that says which frame
    is legal in which state. */
module Protocol {
  import opened Prelude

  datatype ConnectionState =
    | Connected | AwaitingHelloOk | Ready | AwaitingPairOfferOk | AwaitingPairPeer
    | ReadyToJoin | AwaitingJoinOk | Bootstrap | Live | Closed

  datatype FrameEvent =
    | Hello | HelloOk | PairOffer | PairOfferOk | PairClaim | PairPeer
    | Join | JoinOk | MailboxClip | LiveClip | MailboxEmpty | Error

  function StateIndex(s: ConnectionState): (i: nat)
    ensures i < 10
    ensures s == Closed <==> i == 9
  {
    match s
    case Connected => 0
    case AwaitingHelloOk => 1
    case Ready => 2
    case AwaitingPairOfferOk => 3
    case AwaitingPairPeer => 4
    case ReadyToJoin => 5
    case AwaitingJoinOk => 6
    case Bootstrap => 7
    case Live => 8
    case Closed => 9
  }

  function EventIndex(e: FrameEvent): (j: nat)
    ensures j < 12
    ensures e == Error <==> j == 11
  {
    match e
    case Hello => 0
    case HelloOk => 1
    case PairOffer => 2
    case PairOfferOk => 3
    case PairClaim => 4
    case PairPeer => 5
    case Join => 6
    case JoinOk => 7
    case MailboxClip => 8
    case LiveClip => 9
    case MailboxEmpty => 10
    case Error => 11
  }

  /** The protocol: hello, then pair or join, then one bootstrap frame, then live clips; an error ends
      any connection that is not closed. */
  function Next(s: ConnectionState, e: FrameEvent): (next: Option<ConnectionState>)
  {
    match (s, e)
    case (Closed, _) => None
    case (_, Error) => Some(Closed)
    case (Connected, Hello) => Some(AwaitingHelloOk)
    case (AwaitingHelloOk, HelloOk) => Some(Ready)
    case (Ready, PairOffer) => Some(AwaitingPairOfferOk)
    case (Ready, PairClaim) => Some(AwaitingPairPeer)
    case (Ready, Join) => Some(AwaitingJoinOk)
    case (AwaitingPairOfferOk, PairOfferOk) => Some(AwaitingPairPeer)
    case (AwaitingPairPeer, PairPeer) => Some(ReadyToJoin)
    case (ReadyToJoin, Join) => Some(AwaitingJoinOk)
    case (AwaitingJoinOk, JoinOk) => Some(Bootstrap)
    case (Bootstrap, MailboxClip) => Some(Live)
    case (Bootstrap, MailboxEmpty) => Some(Live)
    case (Live, LiveClip) => Some(Live)
    case _ => None
  }

  /** The table by index, without its error column. */
  function Cell(i: int, j: int): (next: Option<ConnectionState>)
  {
    if i == 0 && j == 0 then Some(AwaitingHelloOk)
    else if i == 1 && j == 1 then Some(Ready)
    else if i == 2 && j == 2 then Some(AwaitingPairOfferOk)
    else if i == 2 && j == 4 then Some(AwaitingPairPeer)
    else if i == 2 && j == 6 then Some(AwaitingJoinOk)
    else if i == 3 && j == 3 then Some(AwaitingPairPeer)
    else if i == 4 && j == 5 then Some(ReadyToJoin)
    else if i == 5 && j == 6 then Some(AwaitingJoinOk)
    else if i == 6 && j == 7 then Some(Bootstrap)
    else if i == 7 && (j == 8 || j == 10) then Some(Live)
    else if i == 8 && j == 9 then Some(Live)
    else None
  }

  lemma {:induction false} CellIsNext(s: ConnectionState, e: FrameEvent)
    ensures Next(s, e) == if e == Error && s != Closed then Some(Closed) else Cell(StateIndex(s), EventIndex(e))
  {
  }

  /** The rows before pairing completes. */
  method FillEarly(table: array2<Option<ConnectionState>>)
    requires table.Length0 == 10 && table.Length1 == 12
    requires forall i, j :: 0 <= i < 10 && 0 <= j < 12 ==> table[i, j] == None
    modifies table
    ensures forall i, j :: 0 <= i < 10 && 0 <= j < 12 ==> table[i, j] == if i < 4 then Cell(i, j) else None
  {
    table[StateIndex(Connected), EventIndex(Hello)] := Some(AwaitingHelloOk);
    table[StateIndex(AwaitingHelloOk), EventIndex(HelloOk)] := Some(Ready);
    table[StateIndex(Ready), EventIndex(PairOffer)] := Some(AwaitingPairOfferOk);
    table[StateIndex(Ready), EventIndex(PairClaim)] := Some(AwaitingPairPeer);
    table[StateIndex(Ready), EventIndex(Join)] := Some(AwaitingJoinOk);
    table[StateIndex(AwaitingPairOfferOk), EventIndex(PairOfferOk)] := Some(AwaitingPairPeer);
  }

  method FillLate(table: array2<Option<ConnectionState>>)
    requires table.Length0 == 10 && table.Length1 == 12
    requires forall i, j :: 0 <= i < 10 && 0 <= j < 12 ==> table[i, j] == if i < 4 then Cell(i, j) else None
    modifies table
    ensures forall i, j :: 0 <= i < 10 && 0 <= j < 12 ==> table[i, j] == Cell(i, j)
  {
    table[StateIndex(AwaitingPairPeer), EventIndex(PairPeer)] := Some(ReadyToJoin);
    table[StateIndex(ReadyToJoin), EventIndex(Join)] := Some(AwaitingJoinOk);
    table[StateIndex(AwaitingJoinOk), EventIndex(JoinOk)] := Some(Bootstrap);
    table[StateIndex(Bootstrap), EventIndex(MailboxClip)] := Some(Live);
    table[StateIndex(Bootstrap), EventIndex(MailboxEmpty)] := Some(Live);
    table[StateIndex(Live), EventIndex(LiveClip)] := Some(Live);
  }

  /** Fills the table cell by cell, then the error column; every entry is the protocol's. */
  method BuildTransitions() returns (table: array2<Option<ConnectionState>>)
    ensures fresh(table) && table.Length0 == 10 && table.Length1 == 12
    ensures forall s, e :: table[StateIndex(s), EventIndex(e)] == Next(s, e)
  {
    table := new Option<ConnectionState>[10, 12]((i, j) => None);
    FillEarly(table);
    FillLate(table);
    var active := 0;
    while active < StateIndex(Closed)
      invariant 0 <= active <= StateIndex(Closed)
      invariant forall i, j :: 0 <= i < 10 && 0 <= j < 12 ==>
                  table[i, j] == if j == 11 && i < active then Some(Closed) else Cell(i, j)
    {
      table[active, EventIndex(Error)] := Some(Closed);
      active := active + 1;
    }
    forall s, e
      ensures table[StateIndex(s), EventIndex(e)] == Next(s, e)
    {
      CellIsNext(s, e);
    }
  }

  /** A frame is accepted exactly when it is well formed and the protocol has a next state for it. */
  method ValidateFrameOrder(table: array2<Option<ConnectionState>>, s: ConnectionState, e: FrameEvent, wellFormed: bool)
    returns (next: Option<ConnectionState>)
    requires table.Length0 == 10 && table.Length1 == 12
    requires forall s, e :: table[StateIndex(s), EventIndex(e)] == Next(s, e)
    ensures next == if wellFormed then Next(s, e) else None
  {
    if !wellFormed {
      return None;
    }
    next := table[StateIndex(s), EventIndex(e)];
  }

  /** The state after a sequence of frames, if every one of them was legal. */
  function After(s: ConnectionState, frames: seq<FrameEvent>): (end: Option<ConnectionState>)
    decreases |frames|
  {
    if frames == [] then Some(s)
    else match Next(s, frames[0])
      case None => None
      case Some(next) => After(next, frames[1..])
  }

  lemma {:induction false} AfterAppend(s: ConnectionState, a: seq<FrameEvent>, b: seq<FrameEvent>)
    ensures After(s, a + b) == match After(s, a) case None => None case Some(mid) => After(mid, b)
    decreases |a|
  {
    if a == [] {
      assert a + b == b;
    } else {
      assert (a + b)[0] == a[0] && (a + b)[1..] == a[1..] + b;
      if Next(s, a[0]).Some? {
        AfterAppend(Next(s, a[0]).value, a[1..], b);
      }
    }
  }

  /** Live clips, possibly ended by an error. */
  predicate LiveTail(frames: seq<FrameEvent>)
  {
    forall i :: 0 <= i < |frames| ==> frames[i] == LiveClip || (frames[i] == Error && i == |frames| - 1)
  }

  /** What a joining client may be sent: `JoinOk`, one bootstrap frame, live clips; cut short at any
      point, and ended at any point by one error. */
  predicate JoinTrace(frames: seq<FrameEvent>)
  {
    || frames == [] || frames == [Error] || frames == [JoinOk] || frames == [JoinOk, Error]
    || (|frames| >= 2 && frames[0] == JoinOk && (frames[1] == MailboxClip || frames[1] == MailboxEmpty)
        && LiveTail(frames[2..]))
  }

  lemma {:induction false} LiveTailExactly(frames: seq<FrameEvent>)
    ensures After(Live, frames).Some? <==> LiveTail(frames)
    decreases |frames|
  {
    if frames != [] {
      var rest := frames[1..];
      if frames[0] == LiveClip {
        LiveTailExactly(rest);
        assert LiveTail(frames) ==> LiveTail(rest);
        assert LiveTail(rest) ==> LiveTail(frames) by {
          if LiveTail(rest) {
            forall i | 0 < i < |frames|
              ensures frames[i] == LiveClip || (frames[i] == Error && i == |frames| - 1)
            {
              assert frames[i] == rest[i - 1];
            }
          }
        }
      } else if frames[0] == Error {
        assert After(Closed, rest).Some? <==> rest == [];
      }
    }
  }

  /** The table accepts a frame sequence after `Join` exactly when it is a join trace. */
  lemma {:induction false} JoinTraceExactly(frames: seq<FrameEvent>)
    ensures After(AwaitingJoinOk, frames).Some? <==> JoinTrace(frames)
  {
    if |frames| >= 2 && frames[0] == JoinOk {
      var rest := frames[1..];
      assert rest[1..] == frames[2..] && After(AwaitingJoinOk, frames) == After(Bootstrap, rest);
      LiveTailExactly(frames[2..]);
      assert After(Closed, rest[1..]).Some? <==> rest[1..] == [];
    } else if frames != [] {
      assert After(Closed, frames[1..]).Some? <==> frames[1..] == [];
    }
  }

  // ---- Whole conversations ----

  /** What comes before the answer to a join: a greeting, then nothing, an offered pairing or a claimed one. */
  function Openings(): (scripts: seq<seq<FrameEvent>>)
  {
    [[Hello, HelloOk, Join], [Hello, HelloOk, PairOffer, PairOfferOk, PairPeer, Join],
     [Hello, HelloOk, PairClaim, PairPeer, Join]]
  }

  /** Cut off anywhere in the script, possibly by one error, or through the script and on with a join trace. */
  predicate Follows(frames: seq<FrameEvent>, script: seq<FrameEvent>)
  {
    || frames <= script
    || (0 < |frames| <= |script| && frames == script[..|frames| - 1] + [Error])
    || (script <= frames && JoinTrace(frames[|script|..]))
  }

  /** The state that the script leads to is where a join is answered. */
  predicate Leads(s: ConnectionState, script: seq<FrameEvent>)
  {
    After(s, script) == Some(AwaitingJoinOk)
  }

  lemma {:induction false} ScriptIsAccepted(s: ConnectionState, script: seq<FrameEvent>, frames: seq<FrameEvent>)
    requires Leads(s, script) && Follows(frames, script)
    ensures After(s, frames).Some?
  {
    if frames <= script {
      AfterAppend(s, frames, script[|frames|..]);
      assert frames + script[|frames|..] == script;
    } else if script <= frames && JoinTrace(frames[|script|..]) {
      AfterAppend(s, script, frames[|script|..]);
      assert script + frames[|script|..] == frames;
      JoinTraceExactly(frames[|script|..]);
    } else {
      var n := |frames| - 1;
      AfterAppend(s, script[..n], script[n..]);
      assert script[..n] + script[n..] == script;
      AfterAppend(s, script[..n], [Error]);
      var mid := After(s, script[..n]).value;
      assert After(mid, script[n..]).Some? && mid != Closed;
      assert [Error][1..] == [] && After(mid, [Error]) == After(Closed, []);
    }
  }

  lemma {:induction false} OneMore(e: FrameEvent, frames: seq<FrameEvent>, script: seq<FrameEvent>)
    requires frames != [] && frames[0] == e && Follows(frames[1..], script)
    ensures Follows(frames, [e] + script)
  {
    var rest, longer := frames[1..], [e] + script;
    if rest <= script {
      assert frames <= longer;
    } else if script <= rest && JoinTrace(rest[|script|..]) {
      assert frames[|longer|..] == rest[|script|..];
    } else {
      var n := |rest| - 1;
      assert longer[..n + 1] == [e] + script[..n];
      assert frames == [e] + rest;
    }
  }

  lemma {:induction false} ClosedIsFinal(frames: seq<FrameEvent>)
    ensures After(Closed, frames).Some? <==> frames == []
  {
  }

  /** In each state of the script only its next frame, or an error, is accepted. */
  predicate Forced(s: ConnectionState, script: seq<FrameEvent>)
    decreases |script|
  {
    if script == [] then s == AwaitingJoinOk
    else
      && s != Closed && (forall e :: Next(s, e).Some? ==> e == script[0] || e == Error)
      && script[0] != Error && Next(s, script[0]).Some? && Forced(Next(s, script[0]).value, script[1..])
  }

  lemma {:induction false} OnlyScript(s: ConnectionState, script: seq<FrameEvent>, frames: seq<FrameEvent>)
    requires Forced(s, script) && After(s, frames).Some?
    ensures Follows(frames, script)
    decreases |script|
  {
    if script == [] {
      JoinTraceExactly(frames);
      assert frames[0..] == frames;
    } else if frames != [] {
      if frames[0] == Error {
        ClosedIsFinal(frames[1..]);
        assert frames == script[..0] + [Error];
      } else {
        OnlyScript(Next(s, script[0]).value, script[1..], frames[1..]);
        OneMore(script[0], frames, script[1..]);
        assert [script[0]] + script[1..] == script;
      }
    }
  }

  lemma {:induction false} PairingScripts()
    ensures Forced(ReadyToJoin, [Join]) && Forced(AwaitingPairPeer, [PairPeer, Join])
    ensures Forced(AwaitingPairOfferOk, [PairOfferOk, PairPeer, Join])
  {
    assert [Join][1..] == [] && Forced(AwaitingJoinOk, []);
    assert [PairPeer, Join][1..] == [Join];
    assert [PairOfferOk, PairPeer, Join][1..] == [PairPeer, Join];
  }

  predicate AfterGreeting(frames: seq<FrameEvent>)
  {
    || Follows(frames, [Join]) || Follows(frames, [PairOffer, PairOfferOk, PairPeer, Join])
    || Follows(frames, [PairClaim, PairPeer, Join])
  }

  lemma {:induction false} Chosen(s: ConnectionState, e: FrameEvent, script: seq<FrameEvent>, frames: seq<FrameEvent>)
    requires frames != [] && frames[0] == e && After(s, frames).Some? && Forced(Next(s, e).value, script)
    ensures Follows(frames, [e] + script)
  {
    OnlyScript(Next(s, e).value, script, frames[1..]);
    OneMore(e, frames, script);
  }

  lemma {:induction false} ReadyExactly(frames: seq<FrameEvent>)
    requires After(Ready, frames).Some?
    ensures AfterGreeting(frames)
  {
    PairingScripts();
    if frames == [] {
      assert Follows(frames, [Join]);
    } else if frames[0] == PairOffer {
      Chosen(Ready, PairOffer, [PairOfferOk, PairPeer, Join], frames);
      assert [PairOffer] + [PairOfferOk, PairPeer, Join] == [PairOffer, PairOfferOk, PairPeer, Join];
    } else if frames[0] == PairClaim {
      Chosen(Ready, PairClaim, [PairPeer, Join], frames);
      assert [PairClaim] + [PairPeer, Join] == [PairClaim, PairPeer, Join];
    } else if frames[0] == Join {
      Chosen(Ready, Join, [], frames);
      assert [Join] + [] == [Join];
    } else {
      ClosedIsFinal(frames[1..]);
      assert frames == [Join][..0] + [Error];
    }
  }

  lemma {:induction false} Greeted(frames: seq<FrameEvent>, script: seq<FrameEvent>)
    requires |frames| >= 2 && frames[0] == Hello && frames[1] == HelloOk && Follows(frames[2..], script)
    ensures Follows(frames, [Hello, HelloOk] + script)
  {
    assert frames[1..][1..] == frames[2..];
    OneMore(HelloOk, frames[1..], script);
    OneMore(Hello, frames, [HelloOk] + script);
    assert [Hello] + ([HelloOk] + script) == [Hello, HelloOk] + script;
  }

  lemma {:induction false} OpeningsLead()
    ensures forall script :: script in Openings() ==> Leads(Connected, script)
  {
    var p, q, r := [Join], [PairPeer, Join], [PairOfferOk, PairPeer, Join];
    assert p[1..] == [] && q[1..] == p && r[1..] == q;
    assert After(AwaitingJoinOk, []) == Some(AwaitingJoinOk);
    assert Leads(ReadyToJoin, p) && Leads(Ready, p);
    assert Leads(AwaitingPairPeer, q) && Leads(AwaitingPairOfferOk, r);
    var offer, claim := [PairOffer] + r, [PairClaim] + q;
    assert offer[1..] == r && claim[1..] == q && Leads(Ready, offer) && Leads(Ready, claim);
    forall script | script in Openings()
      ensures Leads(Connected, script)
    {
      var rest := script[2..];
      assert rest == p || rest == offer || rest == claim;
      assert script[1..][1..] == rest && Leads(AwaitingHelloOk, script[1..]);
    }
  }

  /** From the first frame on, the table accepts exactly the conversations that follow one of the three openings, cut
      off or ended by one error anywhere, and go on with one bootstrap frame and live clips. */
  lemma {:induction false} ConversationExactly(frames: seq<FrameEvent>)
    ensures After(Connected, frames).Some? <==> exists script :: script in Openings() && Follows(frames, script)
  {
    if script :| script in Openings() && Follows(frames, script) {
      OpeningsLead();
      ScriptIsAccepted(Connected, script, frames);
    }
    if After(Connected, frames).Some? {
      ConversationFollows(frames);
    }
  }

  lemma {:induction false} BeforeGreeting(frames: seq<FrameEvent>)
    requires After(Connected, frames).Some? && !(|frames| >= 2 && frames[0] == Hello && frames[1] == HelloOk)
    ensures Follows(frames, [Hello, HelloOk, Join])
  {
    if |frames| >= 2 {
      ClosedIsFinal(frames[1..]);
      ClosedIsFinal(frames[1..][1..]);
      assert frames == [Hello, HelloOk, Join][..1] + [Error];
    } else if |frames| == 1 && frames[0] == Error {
      assert frames == [Hello, HelloOk, Join][..0] + [Error];
    }
  }

  lemma {:induction false} AfterGreetingFollows(frames: seq<FrameEvent>, tail: seq<FrameEvent>)
    requires |frames| >= 2 && frames[0] == Hello && frames[1] == HelloOk && Follows(frames[2..], tail)
    requires tail in [[Join], [PairOffer, PairOfferOk, PairPeer, Join], [PairClaim, PairPeer, Join]]
    ensures exists script :: script in Openings() && Follows(frames, script)
  {
    Greeted(frames, tail);
    var script := [Hello, HelloOk] + tail;
    assert script == Openings()[0] || script == Openings()[1] || script == Openings()[2];
    assert script in Openings();
  }

  lemma {:induction false} ConversationFollows(frames: seq<FrameEvent>)
    requires After(Connected, frames).Some?
    ensures exists script :: script in Openings() && Follows(frames, script)
  {
    if |frames| >= 2 && frames[0] == Hello && frames[1] == HelloOk {
      assert frames[1..][1..] == frames[2..];
      ReadyExactly(frames[2..]);
      if Follows(frames[2..], [Join]) {
        AfterGreetingFollows(frames, [Join]);
      } else if Follows(frames[2..], [PairClaim, PairPeer, Join]) {
        AfterGreetingFollows(frames, [PairClaim, PairPeer, Join]);
      } else {
        AfterGreetingFollows(frames, [PairOffer, PairOfferOk, PairPeer, Join]);
      }
    } else {
      BeforeGreeting(frames);
      assert [Hello, HelloOk, Join] in Openings();
    }
  }
}
