/** Safety of the Gateway over whole runs, told from the history of what happened. */
module GatewayRuns {
  import opened Common
  import opened Gateway
  import opened GatewayInvariant
  import opened GatewaySteps
  import opened MessageRate
  import PairingKey

  datatype Couple = Couple(core: Socket, viewer: Socket)

  function CoupleOf(c: Completion): Couple {
    Couple(c.core, c.viewer)
  }

  /** The couple whose completion a step announces, if it announces one. */
  function Announces(g: State, e: Event): Option<Couple> {
    if Enabled(g, e) && e.IceServers? && e.found && PairCurrent(g, g.completions[e.id]) && !g.completions[e.id].first
    then Some(CoupleOf(g.completions[e.id])) else None
  }

  /** The ticket a step binds, if it binds one. */
  function Burns(g: State, e: Event): Option<string> {
    if e.TicketVerified? && Binds(g, e).Some? then Some(e.claims.value.jti) else None
  }

  predicate Admits(g: State, e: Event) {
    e.Receive? && e.socket in g.connections
    && Count(g.connections[e.socket], e.nowMs, g.config.messageRateWindowMs).messagesInWindow <= g.config.maxMessagesPerWindow
  }

  /**
   What happened so far: who was ever bound, which tickets were bound, which couples started and
   finished completing and with which claims, when each connection's messages were admitted, and the latest times read.
   */
  datatype History = History(
    everBound: set<Socket>, burnt: set<string>, started: set<Couple>, announced: seq<Couple>, claimed: seq<Claims>,
    admitted: map<Socket, seq<int>>, unixClock: int, msClock: int)

  datatype World = World(g: State, h: History)

  function InFlightCouples(completions: map<nat, Completion>): set<Couple> {
    set id | id in completions :: CoupleOf(completions[id])
  }

  function Log(admitted: map<Socket, seq<int>>, s: Socket): seq<int> {
    if s in admitted then admitted[s] else []
  }

  function Record(h: History, g: State, e: Event): History
    requires Enabled(g, e)
  {
    var g' := Step(g, e);
    var burns, announces := Burns(g, e), Announces(g, e);
    History(
      h.everBound + g'.peers.Keys,
      if burns.Some? then h.burnt + {burns.value} else h.burnt,
      h.started + InFlightCouples(g'.completions),
      if announces.Some? then h.announced + [announces.value] else h.announced,
      if announces.Some? then h.claimed + [g.completions[e.id].claims] else h.claimed,
      if Admits(g, e) then h.admitted[e.socket := Log(h.admitted, e.socket) + [e.nowMs]] else h.admitted,
      if e.TicketVerified? || e.Metrics? then e.now else h.unixClock,
      if e.Accept? || e.Receive? then e.nowMs else h.msClock)
  }

  function WorldStep(w: World, e: Event): World
    requires Enabled(w.g, e)
  {
    World(Step(w.g, e), Record(w.h, w.g, e))
  }

  /** Clocks do not run backwards, and each ticket identifier has one expiry. */
  ghost predicate Timely(h: History, e: Event, expiry: string -> int) {
    match e
    case TicketVerified(_, claims, now) => h.unixClock <= now && (claims.Some? ==> claims.value.expiresAt == expiry(claims.value.jti))
    case Metrics(now) => h.unixClock <= now
    case Accept(_, _, nowMs) => h.msClock <= nowMs
    case Receive(_, nowMs, _) => h.msClock <= nowMs
    case _ => true
  }

  function Begin(config: Configuration, unixClock: int, msClock: int): World {
    World(Fresh(config), History({}, {}, {}, [], [], map[], unixClock, msClock))
  }

  ghost predicate Follows(ws: seq<World>, es: seq<Event>, expiry: string -> int, i: nat)
    requires |ws| == |es| + 1 && i < |es|
  {
    Enabled(ws[i].g, es[i]) && Timely(ws[i].h, es[i], expiry) && ws[i + 1] == WorldStep(ws[i], es[i])
  }

  ghost predicate IsRun(ws: seq<World>, es: seq<Event>, expiry: string -> int) {
    && |ws| == |es| + 1 && ws[0] == Begin(ws[0].g.config, ws[0].h.unixClock, ws[0].h.msClock)
    && forall i {:trigger Follows(ws, es, expiry, i)} :: 0 <= i < |es| ==> Follows(ws, es, expiry, i)
  }

  // -------------------------------------------------------------- bound once

  /** Whoever was ever bound is a peer still, or gone for good. */
  ghost predicate BoundOnce(g: State, everBound: set<Socket>) {
    && g.peers.Keys <= everBound <= g.seen
    && forall s :: s in everBound ==> s in g.peers || s !in g.open || s !in g.connections
  }

  lemma StepKeepsBoundOnce(g: State, e: Event, everBound: set<Socket>)
    requires Inv(g) && Enabled(g, e) && BoundOnce(g, everBound)
    ensures BoundOnce(Step(g, e), everBound + Step(g, e).peers.Keys)
    ensures forall s :: s in Step(g, e).peers && s !in g.peers ==> s !in everBound
  {
    var g' := Step(g, e);
    StepIsFramed(g, e);
    StepKeepsInv(g, e);
    forall s | s in everBound + g'.peers.Keys
      ensures s in g'.peers || s !in g'.open || s !in g'.connections
      ensures s in g'.seen
      ensures s in g'.peers && s !in g.peers ==> s !in everBound
    {
      assert SocketFramed(g, g', s);
    }
  }

  // ---------------------------------------------------------------- tickets

  /** The pruned table knows every bound ticket that could still be presented. */
  ghost predicate Tickets(consumed: map<string, int>, burnt: set<string>, clock: int, expiry: string -> int) {
    && (forall jti :: jti in consumed ==> consumed[jti] == expiry(jti) && jti in burnt)
    && (forall jti :: jti in burnt ==> jti in consumed || expiry(jti) <= clock)
  }

  /** For a ticket not yet expired the bounded table answers as an unbounded set would. */
  lemma PrunedTableRefinesSet(consumed: map<string, int>, burnt: set<string>, clock: int, expiry: string -> int, jti: string, now: int)
    requires Tickets(consumed, burnt, clock, expiry) && clock <= now < expiry(jti)
    ensures jti in Prune(consumed, now) <==> jti in burnt
  {
  }

  lemma PruneKeepsTickets(consumed: map<string, int>, burnt: set<string>, clock: int, expiry: string -> int, now: int)
    requires Tickets(consumed, burnt, clock, expiry) && clock <= now
    ensures Tickets(Prune(consumed, now), burnt, now, expiry)
  {
  }

  /** A step other than a binding consumes nothing; a binding step consumes exactly its own ticket. */
  lemma ConsumedExactlyWhenBound(g: State, e: Event)
    requires Inv(g) && Enabled(g, e)
    ensures var consumed' := Step(g, e).consumedTickets;
            match Burns(g, e)
            case Some(jti) => jti !in Prune(g.consumedTickets, e.now) && e.now < e.claims.value.expiresAt
                              && consumed' == Prune(g.consumedTickets, e.now)[jti := e.claims.value.expiresAt]
            case None => consumed' == g.consumedTickets
                         || ((e.TicketVerified? || e.Metrics?) && consumed' == Prune(g.consumedTickets, e.now))
  {
    if Binds(g, e).Some? {
      BindingStep(g, e);
      EnterKeepsTickets(g, e);
    } else {
      match e {
        case Accept(s, address, nowMs) => AcceptFields(g, s, address, nowMs);
        case Receive(s, nowMs, frame) => ReceiveIsReceived(g, s, nowMs, frame);
        case TicketVerified(id, claims, now) => RefusedTicketIsQuiet(g, id, claims, now);
        case CoreAuthorized(id, allowed) => RefusedCoreIsQuiet(g, id, allowed);
        case IceServers(id, found) => IceIsQuiet(g, id, found);
        case Gone(s) => GoneFields(g, s);
        case PairTimer(key) => ExpireFields(g, key);
        case _ => SimpleIsQuiet(g, e);
      }
    }
  }

  lemma PruneShrinks(tickets: map<string, int>, now: int)
    ensures |Prune(tickets, now)| <= |tickets|
  {
    assert Prune(tickets, now).Keys <= tickets.Keys;
    Smaller(Prune(tickets, now).Keys, tickets.Keys);
  }

  lemma {:induction false} Smaller(a: set<string>, b: set<string>)
    requires a <= b
    ensures |a| <= |b|
  {
    if a != {} {
      var x :| x in a;
      Smaller(a - {x}, b - {x});
    }
  }

  /** The table of consumed tickets never outgrows its capacity. */
  lemma StepKeepsTicketCapacity(g: State, e: Event)
    requires Inv(g) && Enabled(g, e) && |g.consumedTickets| <= g.config.maxConsumedTickets
    ensures |Step(g, e).consumedTickets| <= g.config.maxConsumedTickets
  {
    ConsumedExactlyWhenBound(g, e);
    if e.TicketVerified? || e.Metrics? {
      PruneShrinks(g.consumedTickets, e.now);
    }
    if Burns(g, e).Some? {
      BoundTicketHasRoom(g, e);
      var pruned := Prune(g.consumedTickets, e.now);
      assert pruned[e.claims.value.jti := e.claims.value.expiresAt].Keys == pruned.Keys + {e.claims.value.jti};
    }
  }

  lemma BoundTicketHasRoom(g: State, e: Event)
    requires Burns(g, e).Some?
    ensures |Prune(g.consumedTickets, e.now)| < g.config.maxConsumedTickets
  {
  }

  lemma EnterKeepsTickets(g: State, e: Event)
    requires Inv(g) && Enabled(g, e) && Binds(g, e).Some?
    ensures Step(g, e).consumedTickets == Primed(g, e).consumedTickets
  {
    var b := Binds(g, e).value;
    BindingStep(g, e);
    EnterFields(Primed(g, e), Fill(b.record, b.socket, b.role, b.claims), b.socket, b.role);
  }

  lemma StepKeepsTickets(w: World, e: Event, expiry: string -> int)
    requires Inv(w.g) && Enabled(w.g, e) && Timely(w.h, e, expiry)
    requires Tickets(w.g.consumedTickets, w.h.burnt, w.h.unixClock, expiry)
    ensures var w' := WorldStep(w, e); Tickets(w'.g.consumedTickets, w'.h.burnt, w'.h.unixClock, expiry)
    ensures Burns(w.g, e).Some? ==> Burns(w.g, e).value !in w.h.burnt
  {
    ConsumedExactlyWhenBound(w.g, e);
    if e.TicketVerified? || e.Metrics? {
      PruneKeepsTickets(w.g.consumedTickets, w.h.burnt, w.h.unixClock, expiry, e.now);
    }
    if Burns(w.g, e).Some? {
      PrunedTableRefinesSet(w.g.consumedTickets, w.h.burnt, w.h.unixClock, expiry, e.claims.value.jti, e.now);
    }
  }

  // -------------------------------------------------------------- completions

  /** While a member of a completing couple is bound, it is bound to the very record it started with. */
  ghost predicate Anchored(c: Completion, pairs: map<string, Pairing>, peers: map<Socket, BoundPeer>) {
    && (c.core in peers ==>
          peers[c.core] == BoundPeer(Core, c.key) && c.key in pairs && pairs[c.key].id == c.pairingId)
    && (c.viewer in peers ==>
          peers[c.viewer] == BoundPeer(Viewer, c.key) && c.key in pairs && pairs[c.key].id == c.pairingId
          && pairs[c.key].claims == Some(c.claims))
  }

  ghost predicate InFlight(c: Completion, pairs: map<string, Pairing>, peers: map<Socket, BoundPeer>, h: History) {
    && CoupleOf(c) in h.started && CoupleOf(c) !in h.announced
    && Anchored(c, pairs, peers)
  }

  ghost predicate Distinct(completions: map<nat, Completion>, i: nat, j: nat) {
    i in completions && j in completions && i != j ==> CoupleOf(completions[i]) != CoupleOf(completions[j])
  }

  ghost predicate Couples(g: State, h: History) {
    && (forall id :: id in g.completions ==> InFlight(g.completions[id], g.pairs, g.peers, h))
    && (forall i, j {:trigger Distinct(g.completions, i, j)} :: Distinct(g.completions, i, j))
    && (forall c :: c in h.started ==> c.core in h.everBound && c.viewer in h.everBound)
    && (forall i :: 0 <= i < |h.announced| ==> h.announced[i] in h.started)
    && (forall i, j :: 0 <= i < j < |h.announced| ==> h.announced[i] != h.announced[j])
  }

  lemma AnchorHolds(c: Completion, g: State, g': State, everBound: set<Socket>)
    requires Anchored(c, g.pairs, g.peers) && Framed(g, g')
    requires c.core in everBound && c.viewer in everBound
    requires forall s :: s in g'.peers && s !in g.peers ==> s !in everBound
    ensures Anchored(c, g'.pairs, g'.peers)
  {
    assert SocketFramed(g, g', c.core) && SocketFramed(g, g', c.viewer);
    assert RecordFramed(g.pairs, g.peers, g'.pairs, g'.peers, c.core) && RecordFramed(g.pairs, g.peers, g'.pairs, g'.peers, c.viewer);
  }

  lemma OtherStepsKeepCompletions(g: State, e: Event)
    requires Inv(g) && Enabled(g, e) && Binds(g, e).None? && !e.IceServers?
    ensures Step(g, e).completions == g.completions
  {
    match e {
      case Accept(s, address, nowMs) => AcceptFields(g, s, address, nowMs);
      case Receive(s, nowMs, frame) => ReceiveIsReceived(g, s, nowMs, frame);
      case TicketVerified(id, claims, now) => RefusedTicketIsQuiet(g, id, claims, now);
      case CoreAuthorized(id, allowed) => RefusedCoreIsQuiet(g, id, allowed);
      case Gone(s) => GoneFields(g, s);
      case PairTimer(key) => ExpireFields(g, key);
      case _ => SimpleIsQuiet(g, e);
    }
  }

  /** A step other than a binding starts no completion, and ends the one it announces. */
  lemma UnboundCompletions(g: State, e: Event)
    requires Inv(g) && Enabled(g, e) && Binds(g, e).None?
    ensures var g' := Step(g, e);
            && (forall id :: id in g'.completions ==>
                  id in g.completions && g'.completions[id] == g.completions[id].(first := g'.completions[id].first))
            && (Announces(g, e).Some? ==> g'.completions == g.completions - {e.id})
  {
    if e.IceServers? {
      IceIsQuiet(g, e.id, e.found);
    } else {
      OtherStepsKeepCompletions(g, e);
    }
  }

  /** A pairing that just became full anchors the completion made from it. */
  lemma FullPairAnchors(pairs: map<string, Pairing>, peers: map<Socket, BoundPeer>, key: string, c: Completion)
    requires key in pairs && PairPlaced(pairs, peers, key) && pairs[key].claims == Some(c.claims)
    requires pairs[key].core == Some(c.core) && pairs[key].viewer == Some(c.viewer) && c.key == key && pairs[key].id == c.pairingId
    ensures c.core in peers && c.viewer in peers && Anchored(c, pairs, peers)
  {
  }

  /** `id` is the new completion, and `s` filled its couple up. */
  ghost predicate Starts(completions: map<nat, Completion>, g': State, id: nat, s: Socket) {
    && id in g'.completions
    && var c := g'.completions[id];
    && g'.completions == completions[id := c] && (c.core == s || c.viewer == s)
    && c.core in g'.peers && c.viewer in g'.peers && Anchored(c, g'.pairs, g'.peers)
  }

  lemma EnterStarts(g: State, p: Pairing, s: Socket, role: Role)
    requires SlotOf(p, role) == Some(s)
    requires var g' := EnterPairing(g, p, s, role); Agree(g'.pairs, g'.peers)
    ensures var g' := EnterPairing(g, p, s, role); g'.completions == g.completions || Starts(g.completions, g', g.nextId + 1, s)
  {
    var g' := EnterPairing(g, p, s, role);
    EnterFields(g, p, s, role);
    assert PairPlaced(g'.pairs, g'.peers, p.key);
    if p.core.Some? && p.viewer.Some? && p.claims.Some? {
      FullPairAnchors(g'.pairs, g'.peers, p.key, g'.completions[g.nextId + 1]);
    }
  }

  /** A binding step starts at most one completion: that of the couple its socket fills up. */
  lemma BindingCompletions(g: State, e: Event)
    requires Inv(g) && Enabled(g, e) && Binds(g, e).Some?
    ensures var g' := Step(g, e); g'.completions == g.completions || Starts(g.completions, g', g.nextId + 1, Binds(g, e).value.socket)
  {
    if e.TicketVerified? {
      BindingAgrees(g, e);
      var b := Binds(g, e).value;
      EnterStarts(Primed(g, e), Fill(b.record, b.socket, Viewer, b.claims), b.socket, Viewer);
    } else {
      BindingAgrees(g, e);
      var b := Binds(g, e).value;
      EnterStarts(Primed(g, e), Fill(b.record, b.socket, Core, b.claims), b.socket, Core);
    }
  }

  lemma BindingAgrees(g: State, e: Event)
    requires Inv(g) && Enabled(g, e) && Binds(g, e).Some?
    ensures var b := Binds(g, e).value;
            var g' := EnterPairing(Primed(g, e), Fill(b.record, b.socket, b.role, b.claims), b.socket, b.role);
            && Step(g, e) == g' && Agree(g'.pairs, g'.peers)
            && Primed(g, e).completions == g.completions && Primed(g, e).nextId == g.nextId
  {
    BindingStep(g, e);
    StepKeepsInv(g, e);
  }

  /** What a step does to a completion in flight after it: it is new, or was in flight before. */
  lemma FlightIsNewOrKept(w: World, e: Event, id: nat)
    requires Inv(w.g) && Enabled(w.g, e) && BoundOnce(w.g, w.h.everBound) && Couples(w.g, w.h)
    requires id in Step(w.g, e).completions
    ensures Kept(w.g, e, id) || New(w, e, id)
  {
    if Binds(w.g, e).Some? {
      FlightAfterBinding(w, e, id);
    } else {
      UnboundCompletions(w.g, e);
    }
  }

  ghost predicate Kept(g: State, e: Event, id: nat)
    requires Enabled(g, e) && id in Step(g, e).completions
  {
    && id in g.completions && Step(g, e).completions[id] == g.completions[id].(first := Step(g, e).completions[id].first)
    && (Announces(g, e).Some? ==> id != e.id)
  }

  ghost predicate New(w: World, e: Event, id: nat)
    requires Enabled(w.g, e) && id in Step(w.g, e).completions
  {
    var g' := Step(w.g, e);
    var c := g'.completions[id];
    && id !in w.g.completions && (c.core !in w.h.everBound || c.viewer !in w.h.everBound) && Anchored(c, g'.pairs, g'.peers)
    && Announces(w.g, e).None?
  }

  lemma FlightAfterBinding(w: World, e: Event, id: nat)
    requires Inv(w.g) && Enabled(w.g, e) && BoundOnce(w.g, w.h.everBound) && Binds(w.g, e).Some?
    requires id in Step(w.g, e).completions
    ensures Kept(w.g, e, id) || New(w, e, id)
  {
    BindingCompletions(w.g, e);
    BindingIsFresh(w.g, e, w.h.everBound);
    assert w.g.nextId + 1 !in w.g.completions;
  }

  lemma BindingIsFresh(g: State, e: Event, everBound: set<Socket>)
    requires Inv(g) && Enabled(g, e) && BoundOnce(g, everBound) && Binds(g, e).Some?
    ensures Binds(g, e).value.socket !in everBound
  {
    BindingStep(g, e);
  }

  lemma StepKeepsAnchor(w: World, e: Event, c: Completion)
    requires Inv(w.g) && Enabled(w.g, e) && BoundOnce(w.g, w.h.everBound)
    requires Anchored(c, w.g.pairs, w.g.peers) && c.core in w.h.everBound && c.viewer in w.h.everBound
    ensures Anchored(c, Step(w.g, e).pairs, Step(w.g, e).peers)
  {
    StepKeepsBoundOnce(w.g, e, w.h.everBound);
    StepIsFramed(w.g, e);
    AnchorHolds(c, w.g, Step(w.g, e), w.h.everBound);
  }

  lemma StepKeepsFlight(w: World, e: Event, id: nat)
    requires Inv(w.g) && Enabled(w.g, e) && BoundOnce(w.g, w.h.everBound) && Couples(w.g, w.h)
    requires id in Step(w.g, e).completions
    ensures InFlight(Step(w.g, e).completions[id], Step(w.g, e).pairs, Step(w.g, e).peers, Record(w.h, w.g, e))
    ensures id !in w.g.completions ==> CoupleOf(Step(w.g, e).completions[id]) !in w.h.started
    ensures id in w.g.completions ==> CoupleOf(Step(w.g, e).completions[id]) == CoupleOf(w.g.completions[id])
  {
    var g' := Step(w.g, e);
    var c := g'.completions[id];
    FlightIsNewOrKept(w, e, id);
    assert CoupleOf(c) in InFlightCouples(g'.completions);
    if id in w.g.completions {
      StepKeepsAnchor(w, e, w.g.completions[id]);
      if Announces(w.g, e).Some? {
        assert Distinct(w.g.completions, id, e.id);
      }
    }
  }

  lemma StepKeepsCouples(w: World, e: Event)
    requires Inv(w.g) && Enabled(w.g, e) && BoundOnce(w.g, w.h.everBound) && Couples(w.g, w.h)
    ensures Couples(WorldStep(w, e).g, WorldStep(w, e).h)
    ensures Announces(w.g, e).Some? ==> Announces(w.g, e).value !in w.h.announced
  {
    var w' := WorldStep(w, e);
    forall id | id in w'.g.completions ensures InFlight(w'.g.completions[id], w'.g.pairs, w'.g.peers, w'.h) {
      StepKeepsFlight(w, e, id);
    }
    StepKeepsDistinct(w, e);
    StepKeepsStarted(w, e);
  }

  lemma StepKeepsDistinct(w: World, e: Event)
    requires Inv(w.g) && Enabled(w.g, e) && BoundOnce(w.g, w.h.everBound) && Couples(w.g, w.h)
    ensures forall i, j :: Distinct(Step(w.g, e).completions, i, j)
  {
    var g' := Step(w.g, e);
    forall i, j ensures Distinct(g'.completions, i, j) {
      if i in g'.completions && j in g'.completions && i != j {
        StepKeepsFlight(w, e, i);
        StepKeepsFlight(w, e, j);
        assert Distinct(w.g.completions, i, j);
        if Binds(w.g, e).Some? {
          BindingCompletions(w.g, e);
        } else {
          UnboundCompletions(w.g, e);
        }
      }
    }
  }

  lemma StepKeepsStarted(w: World, e: Event)
    requires Inv(w.g) && Enabled(w.g, e) && BoundOnce(w.g, w.h.everBound) && Couples(w.g, w.h)
    ensures var h := WorldStep(w, e).h; forall c :: c in h.started ==> c.core in h.everBound && c.viewer in h.everBound
  {
    var g' := Step(w.g, e);
    forall id | id in g'.completions
      ensures g'.completions[id].core in w.h.everBound + g'.peers.Keys && g'.completions[id].viewer in w.h.everBound + g'.peers.Keys
    {
      if Binds(w.g, e).Some? {
        BindingCompletions(w.g, e);
      } else {
        UnboundCompletions(w.g, e);
      }
    }
  }

  // ------------------------------------------------------------ message rate

  /** What the limiter's record of a connection knows about the log of its admissions. */
  ghost predicate Rated(connections: map<Socket, ConnectionRecord>, admitted: map<Socket, seq<int>>, clock: int, windowMs: nat, max: nat, s: Socket) {
    && Sparse(Log(admitted, s), windowMs, max)
    && (forall i :: 0 <= i < |Log(admitted, s)| ==> Log(admitted, s)[i] <= clock)
    && (s in connections ==> connections[s].windowStartedAt <= clock && Remembers(connections[s], Log(admitted, s), windowMs, max))
  }

  ghost predicate Rates(g: State, h: History) {
    && h.admitted.Keys <= g.seen
    && forall s {:trigger Rated(g.connections, h.admitted, h.msClock, g.config.messageRateWindowMs, g.config.maxMessagesPerWindow, s)} ::
         Rated(g.connections, h.admitted, h.msClock, g.config.messageRateWindowMs, g.config.maxMessagesPerWindow, s)
  }

  predicate SameWindow(a: ConnectionRecord, b: ConnectionRecord) {
    a.windowStartedAt == b.windowStartedAt && a.messagesInWindow == b.messagesInWindow
  }

  /** Every remaining record counts as before. */
  ghost predicate WindowsKept(c: map<Socket, ConnectionRecord>, c': map<Socket, ConnectionRecord>) {
    forall s :: s in c' ==> s in c && SameWindow(c[s], c'[s])
  }

  lemma RejectKeepsWindows(g: State, s: Socket, code: ErrorCode)
    ensures WindowsKept(g.connections, RejectBindFailure(g, s, code).connections)
  {
    RejectFields(g, s, code);
  }

  lemma DispatchKeepsWindows(g: State, s: Socket, frame: Frame)
    requires s in g.connections
    ensures WindowsKept(g.connections, DispatchStep(g, s, frame).connections)
  {
    if g.connections[s].bindInProgress {
      RejectKeepsWindows(g, s, AuthFailed);
    } else if frame.Malformed? {
      RejectKeepsWindows(g, s, MessageInvalid);
    } else if s in g.peers {
      RelayKeepsWindows(g, s, frame.message);
    } else {
      MarkedBeginKeepsWindows(g, s, frame.message);
    }
  }

  lemma MarkedBeginKeepsWindows(g: State, s: Socket, message: SignalMessage)
    requires s in g.connections
    ensures WindowsKept(g.connections,
              BeginBind(g.(connections := g.connections[s := g.connections[s].(bindInProgress := true)]), s, message).connections)
  {
    var g1 := g.(connections := g.connections[s := g.connections[s].(bindInProgress := true)]);
    assert WindowsKept(g.connections, g1.connections);
    BeginKeepsWindows(g1, s, message);
  }

  lemma BeginKeepsWindows(g: State, s: Socket, message: SignalMessage)
    ensures WindowsKept(g.connections, BeginBind(g, s, message).connections)
  {
    RejectKeepsWindows(g, s, AuthFailed);
  }

  lemma RelayKeepsWindows(g: State, s: Socket, message: SignalMessage)
    requires s in g.peers
    ensures WindowsKept(g.connections, RelayStep(g, s, message).connections)
  {
    var r := RelayTarget(g, s, message);
    if r.Ok? {
      SendFields(g, r.value, Relayed(message));
    } else {
      RejectKeepsWindows(g, s, r.error);
    }
  }

  lemma TicketKeepsWindows(g: State, id: nat, claims: Option<Claims>, now: int)
    requires id in g.authentications
    ensures WindowsKept(g.connections, TicketStep(g, id, claims, now).connections)
  {
    var s, g0 := g.authentications[id].socket, g.(authentications := g.authentications - {id});
    if !ConnectionOpen(g, s) || claims.None? {
      RejectKeepsWindows(g0, s, AuthFailed);
    } else {
      BindTicketKeepsWindows(g0, s, claims.value, now);
    }
  }

  lemma BindTicketKeepsWindows(g: State, s: Socket, claims: Claims, now: int)
    ensures WindowsKept(g.connections, BindTicket(g, s, claims, now).connections)
  {
    var g1 := g.(consumedTickets := Prune(g.consumedTickets, now));
    var refusal := TicketRefusal(g1, claims, now);
    if refusal.Some? {
      RejectKeepsWindows(g1, s, refusal.value);
    }
  }

  lemma CoreKeepsWindows(g: State, id: nat, allowed: bool)
    requires id in g.authentications && g.authentications[id].CoreBind?
    ensures WindowsKept(g.connections, CoreStep(g, id, allowed).connections)
  {
    var bind, g0 := g.authentications[id], g.(authentications := g.authentications - {id});
    RejectKeepsWindows(g0, bind.socket, AuthFailed);
    RejectKeepsWindows(g0, bind.socket, PairConflict);
    var q := GetOrCreatePairing(g0, bind.sessionId, bind.viewerGeneration);
    if q.Some? {
      EnterFields(g0, q.value.(core := Some(bind.socket)), bind.socket, Core);
    }
  }

  lemma IceKeepsWindows(g: State, id: nat, found: bool)
    requires id in g.completions
    ensures WindowsKept(g.connections, IceStep(g, id, found).connections)
  {
    var c, g0 := g.completions[id], g.(completions := g.completions - {id});
    RejectKeepsWindows(g0, c.binder, MessageInvalid);
    AnnounceFields(g0, c);
  }

  lemma GoneKeepsWindows(g: State, s: Socket)
    ensures WindowsKept(g.connections, WithoutConnection(WithoutPeer(g, s), s).connections)
  {
    WithoutPeerFields(g, s);
  }

  lemma OtherStepsKeepWindows(g: State, e: Event)
    requires Enabled(g, e) && !e.Accept? && !e.Receive?
    ensures WindowsKept(g.connections, Step(g, e).connections)
  {
    match e {
      case TicketVerified(id, claims, now) => TicketKeepsWindows(g, id, claims, now);
      case CoreAuthorized(id, allowed) => CoreKeepsWindows(g, id, allowed);
      case IceServers(id, found) => IceKeepsWindows(g, id, found);
      case Gone(s) => GoneKeepsWindows(g, s);
      case PairTimer(key) => ExpireFields(g, key);
      case BindTimeout(s) => SendFields(g, s, Failure(AuthFailed));
      case BindFinished(_) =>
      case NotOpen(_) =>
      case Metrics(_) =>
    }
  }

  lemma KeptWindowsStayRated(c: map<Socket, ConnectionRecord>, c': map<Socket, ConnectionRecord>, admitted: map<Socket, seq<int>>,
                             clock: int, clock': int, windowMs: nat, max: nat, s: Socket)
    requires Rated(c, admitted, clock, windowMs, max, s) && clock <= clock' && (s in c' ==> s in c && SameWindow(c[s], c'[s]))
    ensures Rated(c', admitted, clock', windowMs, max, s)
  {
  }

  lemma AdmissionIsRated(c: map<Socket, ConnectionRecord>, c': map<Socket, ConnectionRecord>, admitted: map<Socket, seq<int>>,
                         clock: int, now: int, windowMs: nat, max: nat, s: Socket)
    requires Rated(c, admitted, clock, windowMs, max, s) && clock <= now && s in c
    requires Count(c[s], now, windowMs).messagesInWindow <= max
    requires s in c' ==> SameWindow(Count(c[s], now, windowMs), c'[s])
    ensures Rated(c', admitted[s := Log(admitted, s) + [now]], now, windowMs, max, s)
  {
    AdmitRemembers(c[s], Log(admitted, s), now, windowMs, max);
  }

  /** What a message does to the limiter: over the limit it drops the connection, else it is counted. */
  lemma ReceiveCounts(g: State, s: Socket, nowMs: int, frame: Frame)
    requires s in g.connections
    ensures var c' := ReceiveStep(g, s, nowMs, frame).connections;
            && (forall t :: t in c' && t != s ==> t in g.connections && SameWindow(g.connections[t], c'[t]))
            && (if Admits(g, Receive(s, nowMs, frame))
                then s in c' ==> SameWindow(Count(g.connections[s], nowMs, g.config.messageRateWindowMs), c'[s])
                else s !in c')
  {
    var g1 := CountStep(g, s, nowMs);
    if Admits(g, Receive(s, nowMs, frame)) {
      DispatchKeepsWindows(g1, s, frame);
    } else {
      GoneKeepsWindows(g1, s);
      GoneFields(g1, s);
    }
  }

  lemma StepKeepsRates(w: World, e: Event, expiry: string -> int)
    requires Inv(w.g) && Enabled(w.g, e) && Timely(w.h, e, expiry) && Rates(w.g, w.h)
    ensures Rates(WorldStep(w, e).g, WorldStep(w, e).h)
  {
    var g, h, w' := w.g, w.h, WorldStep(w, e);
    var windowMs, max := g.config.messageRateWindowMs, g.config.maxMessagesPerWindow;
    StepIsFramed(g, e);
    forall s ensures Rated(w'.g.connections, w'.h.admitted, w'.h.msClock, windowMs, max, s) {
      assert Rated(g.connections, h.admitted, h.msClock, windowMs, max, s);
      match e {
        case Accept(t, address, nowMs) =>
          AcceptFields(g, t, address, nowMs);
          if s == t {
            FreshRemembers(ConnectionRecord(address, nowMs, 0, false), windowMs, max);
          } else {
            KeptWindowsStayRated(g.connections, w'.g.connections, h.admitted, h.msClock, nowMs, windowMs, max, s);
          }
        case Receive(t, nowMs, frame) =>
          if t in g.connections {
            ReceiveCounts(g, t, nowMs, frame);
            if s == t && Admits(g, e) {
              AdmissionIsRated(g.connections, w'.g.connections, h.admitted, h.msClock, nowMs, windowMs, max, s);
            } else {
              KeptWindowsStayRated(g.connections, w'.g.connections, h.admitted, h.msClock, nowMs, windowMs, max, s);
            }
          }
        case _ =>
          OtherStepsKeepWindows(g, e);
          KeptWindowsStayRated(g.connections, w'.g.connections, h.admitted, h.msClock, h.msClock, windowMs, max, s);
      }
    }
  }

  // -------------------------------------------------------------------- runs

  ghost predicate WorldInv(w: World, expiry: string -> int) {
    && Inv(w.g) && BoundOnce(w.g, w.h.everBound) && Couples(w.g, w.h) && Rates(w.g, w.h)
    && Tickets(w.g.consumedTickets, w.h.burnt, w.h.unixClock, expiry)
    && |w.g.consumedTickets| <= w.g.config.maxConsumedTickets
  }

  lemma WorldStepKeepsInv(w: World, e: Event, expiry: string -> int)
    requires WorldInv(w, expiry) && Enabled(w.g, e) && Timely(w.h, e, expiry)
    ensures WorldInv(WorldStep(w, e), expiry)
  {
    StepKeepsInv(w.g, e);
    StepKeepsBoundOnce(w.g, e, w.h.everBound);
    StepKeepsCouples(w, e);
    StepKeepsRates(w, e, expiry);
    StepKeepsTickets(w, e, expiry);
    StepKeepsTicketCapacity(w.g, e);
    StepIsFramed(w.g, e);
  }

  lemma BeginInv(config: Configuration, unixClock: int, msClock: int, expiry: string -> int)
    ensures WorldInv(Begin(config, unixClock, msClock), expiry)
  {
  }

  lemma {:induction false} EveryRunKeepsInv(ws: seq<World>, es: seq<Event>, expiry: string -> int, n: nat)
    requires IsRun(ws, es, expiry) && n <= |es|
    ensures WorldInv(ws[n], expiry)
  {
    if n == 0 {
      BeginInv(ws[0].g.config, ws[0].h.unixClock, ws[0].h.msClock, expiry);
    } else {
      EveryRunKeepsInv(ws, es, expiry, n - 1);
      assert Follows(ws, es, expiry, n - 1);
      WorldStepKeepsInv(ws[n - 1], es[n - 1], expiry);
    }
  }

  /** History only grows. */
  lemma HistoryGrowsByStep(ws: seq<World>, es: seq<Event>, expiry: string -> int, n: nat)
    requires IsRun(ws, es, expiry) && n < |es|
    ensures ws[n].h.everBound <= ws[n + 1].h.everBound && ws[n].h.burnt <= ws[n + 1].h.burnt
    ensures ws[n].h.announced <= ws[n + 1].h.announced
  {
    assert Follows(ws, es, expiry, n);
  }

  lemma {:induction false} HistoryGrows(ws: seq<World>, es: seq<Event>, expiry: string -> int, i: nat, j: nat)
    requires IsRun(ws, es, expiry) && i <= j <= |es|
    ensures ws[i].h.everBound <= ws[j].h.everBound && ws[i].h.burnt <= ws[j].h.burnt
    ensures ws[i].h.announced <= ws[j].h.announced
  {
    if i < j {
      HistoryGrows(ws, es, expiry, i, j - 1);
      HistoryGrowsByStep(ws, es, expiry, j - 1);
    }
  }

  lemma BurnIsFreshAndRecorded(ws: seq<World>, es: seq<Event>, expiry: string -> int, n: nat)
    requires IsRun(ws, es, expiry) && n < |es| && Burns(ws[n].g, es[n]).Some?
    ensures Burns(ws[n].g, es[n]).value !in ws[n].h.burnt && Burns(ws[n].g, es[n]).value in ws[n + 1].h.burnt
  {
    EveryRunKeepsInv(ws, es, expiry, n);
    assert Follows(ws, es, expiry, n);
    StepKeepsTickets(ws[n], es[n], expiry);
  }

  /** No ticket is ever bound twice, although expired tickets are forgotten. */
  lemma TicketsAreSingleUse(ws: seq<World>, es: seq<Event>, expiry: string -> int, i: nat, j: nat)
    requires IsRun(ws, es, expiry) && i < j < |es|
    requires Burns(ws[i].g, es[i]).Some? && Burns(ws[j].g, es[j]).Some?
    ensures Burns(ws[i].g, es[i]) != Burns(ws[j].g, es[j])
  {
    BurnIsFreshAndRecorded(ws, es, expiry, i);
    BurnIsFreshAndRecorded(ws, es, expiry, j);
    HistoryGrows(ws, es, expiry, i + 1, j);
  }

  /** What a ticket needs besides never having been bound. */
  predicate Presentable(g: State, socket: Socket, claims: Claims, now: int) {
    var key := PairingKey.Key(claims.sessionId, claims.viewerGeneration);
    && ConnectionOpen(g, socket) && claims.gatewayId == g.config.gatewayId
    && claims.issuedAt <= now + 60 && now < claims.expiresAt
    && |Prune(g.consumedTickets, now)| < g.config.maxConsumedTickets
    && (if key in g.pairs then g.pairs[key].viewer.None? else |g.pairs| < g.config.maxPendingPairs)
  }

  /**
   In any run an authentic ticket is bound exactly when it is presentable and no earlier step bound
   it, as if every ticket ever bound were remembered.
   */
  lemma TicketBindsIffUnused(ws: seq<World>, es: seq<Event>, expiry: string -> int, n: nat, id: nat, claims: Claims, now: int)
    requires IsRun(ws, es, expiry) && n <= |es|
    requires Enabled(ws[n].g, TicketVerified(id, Some(claims), now))
    requires ws[n].h.unixClock <= now && claims.expiresAt == expiry(claims.jti)
    ensures Burns(ws[n].g, TicketVerified(id, Some(claims), now)).Some?
       <==> Presentable(ws[n].g, ws[n].g.authentications[id].socket, claims, now) && claims.jti !in ws[n].h.burnt
  {
    EveryRunKeepsInv(ws, es, expiry, n);
    if now < claims.expiresAt {
      PrunedTableRefinesSet(ws[n].g.consumedTickets, ws[n].h.burnt, ws[n].h.unixClock, expiry, claims.jti, now);
    }
  }

  lemma BindingIsFreshAndRecorded(ws: seq<World>, es: seq<Event>, expiry: string -> int, n: nat)
    requires IsRun(ws, es, expiry) && n < |es| && Binds(ws[n].g, es[n]).Some?
    ensures var s := Binds(ws[n].g, es[n]).value.socket; s !in ws[n].h.everBound && s in ws[n + 1].h.everBound
  {
    EveryRunKeepsInv(ws, es, expiry, n);
    assert Follows(ws, es, expiry, n);
    BindingEnters(ws[n].g, es[n]);
    StepKeepsBoundOnce(ws[n].g, es[n], ws[n].h.everBound);
  }

  /** No socket is ever bound twice. */
  lemma SocketsBindOnce(ws: seq<World>, es: seq<Event>, expiry: string -> int, i: nat, j: nat)
    requires IsRun(ws, es, expiry) && i < j < |es|
    ensures var a, b := Binds(ws[i].g, es[i]), Binds(ws[j].g, es[j]);
            a.Some? && b.Some? ==> a.value.socket != b.value.socket
  {
    if Binds(ws[i].g, es[i]).Some? && Binds(ws[j].g, es[j]).Some? {
      BindingIsFreshAndRecorded(ws, es, expiry, i);
      BindingIsFreshAndRecorded(ws, es, expiry, j);
      HistoryGrows(ws, es, expiry, i + 1, j);
    }
  }

  lemma BindingEnters(g: State, e: Event)
    requires Inv(g) && Enabled(g, e) && Binds(g, e).Some?
    ensures var b := Binds(g, e).value;
            b.socket !in g.peers && b.socket in Step(g, e).peers && Step(g, e).peers[b.socket] == BoundPeer(b.role, b.record.key)
  {
    var b := Binds(g, e).value;
    BindingStep(g, e);
    EnterFields(Primed(g, e), Fill(b.record, b.socket, b.role, b.claims), b.socket, b.role);
  }

  /** A peer once lost is never a peer again. */
  lemma {:induction false} LostPeersStayLost(ws: seq<World>, es: seq<Event>, expiry: string -> int, i: nat, j: nat, s: Socket)
    requires IsRun(ws, es, expiry) && i <= j <= |es|
    requires s in ws[i].h.everBound && s !in ws[i].g.peers
    ensures s !in ws[j].g.peers
  {
    if i < j {
      LostPeersStayLost(ws, es, expiry, i, j - 1, s);
      HistoryGrows(ws, es, expiry, i, j - 1);
      LostPeerStaysLost(ws, es, expiry, j - 1, s);
    }
  }

  lemma LostPeerStaysLost(ws: seq<World>, es: seq<Event>, expiry: string -> int, n: nat, s: Socket)
    requires IsRun(ws, es, expiry) && n < |es|
    requires s in ws[n].h.everBound && s !in ws[n].g.peers
    ensures s !in ws[n + 1].g.peers
  {
    EveryRunKeepsInv(ws, es, expiry, n);
    assert Follows(ws, es, expiry, n);
    StepKeepsBoundOnce(ws[n].g, es[n], ws[n].h.everBound);
  }

  lemma AnnouncementIsFreshAndRecorded(ws: seq<World>, es: seq<Event>, expiry: string -> int, n: nat)
    requires IsRun(ws, es, expiry) && n < |es| && Announces(ws[n].g, es[n]).Some?
    ensures Announces(ws[n].g, es[n]).value !in ws[n].h.announced && Announces(ws[n].g, es[n]).value in ws[n + 1].h.announced
  {
    EveryRunKeepsInv(ws, es, expiry, n);
    assert Follows(ws, es, expiry, n);
    StepKeepsCouples(ws[n], es[n]);
  }

  /** No couple is ever completed twice. */
  lemma CouplesCompleteOnce(ws: seq<World>, es: seq<Event>, expiry: string -> int, i: nat, j: nat)
    requires IsRun(ws, es, expiry) && i < j < |es|
    requires Announces(ws[i].g, es[i]).Some? && Announces(ws[j].g, es[j]).Some?
    ensures Announces(ws[i].g, es[i]) != Announces(ws[j].g, es[j])
  {
    AnnouncementIsFreshAndRecorded(ws, es, expiry, i);
    AnnouncementIsFreshAndRecorded(ws, es, expiry, j);
    HistoryGrows(ws, es, expiry, i + 1, j);
  }

  /**
   Once either member of a couple was lost, or its socket stopped being open, no later step completes
   the couple, however its lookups end.
   */
  lemma LostCouplesNeverComplete(ws: seq<World>, es: seq<Event>, expiry: string -> int, i: nat, j: nat, s: Socket)
    requires IsRun(ws, es, expiry) && i <= j < |es|
    requires s in ws[i].h.everBound && (s !in ws[i].g.peers || s !in ws[i].g.open)
    requires Announces(ws[j].g, es[j]).Some?
    ensures var c := Announces(ws[j].g, es[j]).value; c.core != s && c.viewer != s
  {
    if s !in ws[i].g.peers {
      LostPeersStayLost(ws, es, expiry, i, j, s);
    } else {
      EveryRunKeepsInv(ws, es, expiry, i);
      ClosedSocketsStayClosed(ws, es, expiry, i, j, s);
    }
  }

  lemma ClosedSocketStaysClosed(ws: seq<World>, es: seq<Event>, expiry: string -> int, n: nat, s: Socket)
    requires IsRun(ws, es, expiry) && n < |es|
    requires s in ws[n].g.seen && s !in ws[n].g.open
    ensures s in ws[n + 1].g.seen && s !in ws[n + 1].g.open
  {
    EveryRunKeepsInv(ws, es, expiry, n);
    assert Follows(ws, es, expiry, n);
    StepIsFramed(ws[n].g, es[n]);
    assert SocketFramed(ws[n].g, ws[n + 1].g, s);
  }

  lemma {:induction false} ClosedSocketsStayClosed(ws: seq<World>, es: seq<Event>, expiry: string -> int, i: nat, j: nat, s: Socket)
    requires IsRun(ws, es, expiry) && i <= j <= |es|
    requires s in ws[i].g.seen && s !in ws[i].g.open
    ensures s in ws[j].g.seen && s !in ws[j].g.open
  {
    if i < j {
      ClosedSocketsStayClosed(ws, es, expiry, i, j - 1, s);
      ClosedSocketStaysClosed(ws, es, expiry, j - 1, s);
    }
  }

  /**
   Because sockets bind once, the check after each lookup is exactly that both sockets of the couple
   are still bound and open: neither the record nor the claims can have been exchanged beneath them.
   */
  lemma CurrentMeansStillBoundAndOpen(ws: seq<World>, es: seq<Event>, expiry: string -> int, n: nat, id: nat)
    requires IsRun(ws, es, expiry) && n <= |es| && id in ws[n].g.completions
    ensures var g := ws[n].g; var c := g.completions[id];
            PairCurrent(g, c) <==> c.core in g.peers && c.viewer in g.peers && c.core in g.open && c.viewer in g.open
  {
    EveryRunKeepsInv(ws, es, expiry, n);
    var g := ws[n].g;
    var c := g.completions[id];
    assert InFlight(c, g.pairs, g.peers, ws[n].h);
    assert PeerPlaced(g.pairs, g.peers, c.core) && PeerPlaced(g.pairs, g.peers, c.viewer);
  }

  /** A completed couple hears both Ready messages before either PeerReady, and nobody else hears anything. */
  lemma CompletionAnnouncesInOrder(g: State, e: Event)
    requires Inv(g) && Enabled(g, e) && Announces(g, e).Some?
    ensures var c := g.completions[e.id];
            && Step(g, e).sent == g.sent + [Delivery(c.core, Ready(Core, c.claims)), Delivery(c.viewer, Ready(Viewer, c.claims)),
                                            Delivery(c.core, PeerReady), Delivery(c.viewer, PeerReady)]
            && g.peers[c.core] == BoundPeer(Core, c.key) && g.peers[c.viewer] == BoundPeer(Viewer, c.key)
            && c.core in g.open && c.viewer in g.open
            && c.claims.sessionId == g.pairs[c.key].sessionId && c.claims.viewerGeneration == g.pairs[c.key].viewerGeneration
  {
    var c := g.completions[e.id];
    assert PairPlaced(g.pairs, g.peers, c.key);
    AnnounceSends(g.(completions := g.completions - {e.id}), c);
  }

  function Handshake(c: Couple, claims: Claims): seq<Delivery> {
    [ Delivery(c.core, Ready(Core, claims)), Delivery(c.viewer, Ready(Viewer, claims)),
      Delivery(c.core, PeerReady), Delivery(c.viewer, PeerReady) ]
  }

  lemma AnnounceSends(g: State, c: Completion)
    requires c.core in g.open && c.viewer in g.open
    ensures Announce(g, c).sent == g.sent + Handshake(CoupleOf(c), c.claims)
  {
  }

  /** Any interval of the window's length admits at most twice the maximum on a connection. */
  lemma RateIsBounded(ws: seq<World>, es: seq<Event>, expiry: string -> int, s: Socket, from: int, lo: nat, hi: nat)
    requires IsRun(ws, es, expiry)
    requires var log := Log(ws[|es|].h.admitted, s);
             lo <= hi <= |log| && forall i :: lo <= i < hi ==> from <= log[i] < from + ws[|es|].g.config.messageRateWindowMs
    ensures hi - lo <= 2 * ws[|es|].g.config.maxMessagesPerWindow
  {
    EveryRunKeepsInv(ws, es, expiry, |es|);
    var w := ws[|es|];
    assert Rated(w.g.connections, w.h.admitted, w.h.msClock, w.g.config.messageRateWindowMs, w.g.config.maxMessagesPerWindow, s);
    AtMostTwicePerWindow(Log(w.h.admitted, s), from, lo, hi, w.g.config.messageRateWindowMs, w.g.config.maxMessagesPerWindow);
  }

  /** Whenever a pairing expires a role is missing, and no fully bound pairing can expire. */
  lemma ExpiryMissesARole(ws: seq<World>, es: seq<Event>, expiry: string -> int, n: nat, key: string)
    requires IsRun(ws, es, expiry) && n <= |es| && key in ws[n].g.pairs
    ensures Enabled(ws[n].g, PairTimer(key)) <==> ws[n].g.pairs[key].core.None? || ws[n].g.pairs[key].viewer.None?
  {
    EveryRunKeepsInv(ws, es, expiry, n);
    assert PairPlaced(ws[n].g.pairs, ws[n].g.peers, key);
  }
}
