/**
 What the Gateway does for a caller: which messages go through, which binds are taken up, what every
 refusal says. The invariants elsewhere say what may not happen; this says what does.
 */
module GatewayEffects {
  import opened Common
  import opened Gateway
  import opened GatewayInvariant
  import opened GatewaySteps
  import opened GatewayRelay
  import opened GatewayRuns
  import opened MessageRate
  import PairingKey

  // --------------------------------------------------------------- admission

  /** A new connection is taken exactly while the Gateway and its address have room. */
  lemma AcceptedIffRoom(g: State, s: Socket, address: string, nowMs: int)
    requires Inv(g) && s !in g.seen
    ensures var g' := Step(g, Accept(s, address, nowMs));
            && (s in g'.open <==> s in g'.connections)
            && (s in g'.connections <==> |g.connections| < g.config.maxConnections && |From(g.connections, address)| < g.config.maxConnectionsPerIp)
            && (s in g'.connections ==>
                  && g'.connections[s].address == address && !g'.connections[s].bindInProgress
                  && g'.connections[s].messagesInWindow == 0 && g'.connections[s].windowStartedAt == nowMs)
            && s in g'.seen && g'.sent == g.sent
  {
    assert AddressCounted(g.connections, g.connectionsByAddress, g.config.maxConnectionsPerIp, address);
  }

  /** How many messages the running window would hold with one more at `nowMs`. */
  function InWindow(g: State, s: Socket, nowMs: int): nat
    requires s in g.connections
  {
    if nowMs - g.connections[s].windowStartedAt >= g.config.messageRateWindowMs then 1 else g.connections[s].messagesInWindow + 1
  }

  predicate WithinRate(g: State, s: Socket, nowMs: int) {
    s in g.connections && InWindow(g, s, nowMs) <= g.config.maxMessagesPerWindow
  }

  /** One message too many costs the connection everything: socket, place and pairing slot. */
  lemma OverRateIsDropped(g: State, s: Socket, nowMs: int, frame: Frame)
    requires Inv(g) && s in g.connections && !WithinRate(g, s, nowMs)
    ensures var g' := Step(g, Receive(s, nowMs, frame));
            s !in g'.open && s !in g'.connections && s !in g'.peers && g'.authentications == g.authentications
  {
    GoneFields(CountStep(g, s, nowMs), s);
    GoneKeepsBinds(CountStep(g, s, nowMs), s);
  }

  lemma GoneKeepsBinds(g: State, s: Socket)
    ensures WithoutConnection(WithoutPeer(g, s), s).authentications == g.authentications
  {
    WithoutPeerFields(g, s);
    var g1 := WithoutPeer(g, s);
    assert WithoutConnection(g1, s).authentications == g1.authentications;
  }

  // ---------------------------------------------------------------- refusals

  /** The socket is told why, if it still listens, and closed; everyone else hears nothing. */
  ghost predicate Refused(g: State, g': State, s: Socket, code: ErrorCode) {
    && g'.sent == g.sent + (if s in g.open then [Delivery(s, Failure(code))] else [])
    && g'.open == g.open - {s} && g'.peers == g.peers && g'.pairs == g.pairs
  }

  lemma RejectRefuses(g: State, s: Socket, code: ErrorCode)
    ensures Refused(g, RejectBindFailure(g, s, code), s, code)
    ensures RejectBindFailure(g, s, code).authentications == g.authentications
  {
    RejectFields(g, s, code);
    var g1 := g.(connections := Unmarked(g.connections, s));
    assert RejectBindFailure(g, s, code).sent == Send(g1, s, Failure(code)).sent;
  }

  /** While a bind is in progress a second message ends the connection; so does a malformed one at any time. */
  lemma UntimelyMessageIsRefused(g: State, s: Socket, nowMs: int, frame: Frame)
    requires Inv(g) && WithinRate(g, s, nowMs) && (g.connections[s].bindInProgress || frame.Malformed?)
    ensures var g' := Step(g, Receive(s, nowMs, frame));
            && Refused(g, g', s, if g.connections[s].bindInProgress then AuthFailed else MessageInvalid)
            && g'.authentications == g.authentications
  {
    var g1 := CountStep(g, s, nowMs);
    RejectRefuses(g1, s, if g.connections[s].bindInProgress then AuthFailed else MessageInvalid);
  }

  // ------------------------------------------------------------------- relay

  /** Which role may send what once paired. */
  predicate MayPass(role: Role, message: SignalMessage) {
    || (message == Description(true) && role == Core)
    || (message == Description(false) && role == Viewer)
    || message == Ice
    || (message == RestartIce && role == Viewer)
    || (message == SignalError && role == Core)
  }

  /** The partner of a peer: the other role of the same pairing. */
  ghost predicate Partner(g: State, s: Socket, t: Socket) {
    s in g.peers && t in g.peers && g.peers[s].key == g.peers[t].key && g.peers[s].role != g.peers[t].role
  }

  lemma PartnerHoldsTheOtherSlot(g: State, s: Socket, t: Socket)
    requires Agree(g.pairs, g.peers) && s in g.peers
    ensures g.peers[s].key in g.pairs
    ensures Partner(g, s, t) <==> SlotOf(g.pairs[g.peers[s].key], Opposite(g.peers[s].role)) == Some(t)
  {
    assert PeerPlaced(g.pairs, g.peers, s) && PeerPlaced(g.pairs, g.peers, t) && PairPlaced(g.pairs, g.peers, g.peers[s].key);
  }

  /** A paired peer's message of a kind its role may send reaches its partner, and costs the sender nothing. */
  lemma MessageReachesPartner(g: State, s: Socket, nowMs: int, message: SignalMessage, t: Socket)
    requires Inv(g) && Partner(g, s, t) && t in g.open && MayPass(g.peers[s].role, message)
    requires WithinRate(g, s, nowMs) && !g.connections[s].bindInProgress
    ensures var g' := Step(g, Receive(s, nowMs, Signal(message)));
            && g'.sent == g.sent + [Delivery(t, Relayed(message))]
            && g'.open == g.open && g'.peers == g.peers && g'.pairs == g.pairs
            && s in g'.connections && !g'.connections[s].bindInProgress
  {
    PartnerHoldsTheOtherSlot(g, s, t);
    var g1 := CountStep(g, s, nowMs);
    assert RelayTarget(g1, s, message) == Ok(t);
    SendFields(g1, t, Relayed(message));
  }

  /** Any other message of a paired peer is refused as invalid. */
  lemma WrongMessageIsRefused(g: State, s: Socket, nowMs: int, message: SignalMessage, t: Socket)
    requires Inv(g) && Partner(g, s, t) && t in g.open && !MayPass(g.peers[s].role, message)
    requires WithinRate(g, s, nowMs) && !g.connections[s].bindInProgress
    ensures Refused(g, Step(g, Receive(s, nowMs, Signal(message))), s, MessageInvalid)
  {
    PartnerHoldsTheOtherSlot(g, s, t);
    var g1 := CountStep(g, s, nowMs);
    assert RelayTarget(g1, s, message) == Err(MessageInvalid);
    RejectRefuses(g1, s, MessageInvalid);
  }

  lemma NoOpenPartnerIsNotPaired(g: State, s: Socket, message: SignalMessage)
    requires Agree(g.pairs, g.peers) && s in g.peers && forall t :: Partner(g, s, t) ==> t !in g.open
    ensures RelayTarget(g, s, message) == Err(NotPaired)
  {
    assert PeerPlaced(g.pairs, g.peers, s);
    var destination := SlotOf(g.pairs[g.peers[s].key], Opposite(g.peers[s].role));
    if destination.Some? {
      PartnerHoldsTheOtherSlot(g, s, destination.value);
    }
  }

  /** Without an open partner every message is refused as not paired. */
  lemma UnpairedMessageIsRefused(g: State, s: Socket, nowMs: int, message: SignalMessage)
    requires Inv(g) && s in g.peers && forall t :: Partner(g, s, t) ==> t !in g.open
    requires WithinRate(g, s, nowMs) && !g.connections[s].bindInProgress
    ensures Refused(g, Step(g, Receive(s, nowMs, Signal(message))), s, NotPaired)
  {
    var g1 := CountStep(g, s, nowMs);
    assert forall t :: Partner(g1, s, t) <==> Partner(g, s, t);
    NoOpenPartnerIsNotPaired(g1, s, message);
    RejectRefuses(g1, s, NotPaired);
  }

  // ------------------------------------------------------------ first messages

  /** A live connection that is neither bound nor binding, whose next message is within its rate. */
  ghost predicate Newcomer(g: State, s: Socket, nowMs: int) {
    WithinRate(g, s, nowMs) && !g.connections[s].bindInProgress && s !in g.peers
  }

  /** The bind is suspended, and the connection is marked until it is over. */
  ghost predicate TakenUp(g: State, g': State, s: Socket, bind: Authentication) {
    && g'.authentications == g.authentications[g.nextId := bind] && g.nextId !in g.authentications
    && s in g'.connections && g'.connections[s].bindInProgress
    && g'.sent == g.sent && g'.open == g.open && g'.peers == g.peers && g'.pairs == g.pairs
  }

  /** A newcomer's message is counted, and its connection marked as binding. */
  function MarkedAsBinding(g: State, s: Socket, nowMs: int): State
    requires s in g.connections
  {
    var g1 := CountStep(g, s, nowMs);
    g1.(connections := g1.connections[s := g1.connections[s].(bindInProgress := true)])
  }

  lemma FirstMessageBegins(g: State, s: Socket, nowMs: int, message: SignalMessage)
    requires Newcomer(g, s, nowMs)
    ensures Step(g, Receive(s, nowMs, Signal(message))) == BeginBind(MarkedAsBinding(g, s, nowMs), s, message)
  {
    assert DispatchStep(CountStep(g, s, nowMs), s, Signal(message)) == BeginBind(MarkedAsBinding(g, s, nowMs), s, message);
  }

  lemma SuspendedIsTakenUp(g: State, s: Socket, nowMs: int, bind: Authentication)
    requires Inv(g) && s in g.connections
    ensures var g1 := MarkedAsBinding(g, s, nowMs);
            TakenUp(g, g1.(authentications := g1.authentications[g1.nextId := bind], nextId := g1.nextId + 1), s, bind)
  {
  }

  /** A ticket is always handed to the verifier. */
  lemma TicketIsTakenUp(g: State, s: Socket, nowMs: int, ticket: string)
    requires Inv(g) && Newcomer(g, s, nowMs)
    ensures TakenUp(g, Step(g, Receive(s, nowMs, Signal(BindViewer(ticket)))), s, ViewerBind(s))
  {
    FirstMessageBegins(g, s, nowMs, BindViewer(ticket));
    SuspendedIsTakenUp(g, s, nowMs, ViewerBind(s));
  }

  lemma ThisGatewayIsTakenUp(g: State, s: Socket, nowMs: int, sessionId: string, generation: nat)
    requires Inv(g) && Newcomer(g, s, nowMs)
    ensures TakenUp(g, Step(g, Receive(s, nowMs, Signal(BindCore(sessionId, generation, g.config.gatewayId)))), s, CoreBind(s, sessionId, generation))
  {
    FirstMessageBegins(g, s, nowMs, BindCore(sessionId, generation, g.config.gatewayId));
    SuspendedIsTakenUp(g, s, nowMs, CoreBind(s, sessionId, generation));
  }

  lemma OtherGatewayIsRefused(g: State, s: Socket, nowMs: int, sessionId: string, generation: nat, gatewayId: string)
    requires Inv(g) && Newcomer(g, s, nowMs) && gatewayId != g.config.gatewayId
    ensures var g' := Step(g, Receive(s, nowMs, Signal(BindCore(sessionId, generation, gatewayId))));
            Refused(g, g', s, AuthFailed) && g'.authentications == g.authentications
  {
    FirstMessageBegins(g, s, nowMs, BindCore(sessionId, generation, gatewayId));
    RejectRefuses(MarkedAsBinding(g, s, nowMs), s, AuthFailed);
  }

  /** A Core binding is handed to the authorizer if and only if it names this Gateway, and is refused otherwise. */
  lemma CoreBindIsTakenUpIffItNamesThisGateway(g: State, s: Socket, nowMs: int, sessionId: string, generation: nat, gatewayId: string)
    requires Inv(g) && Newcomer(g, s, nowMs)
    ensures var g' := Step(g, Receive(s, nowMs, Signal(BindCore(sessionId, generation, gatewayId))));
            if gatewayId == g.config.gatewayId
            then TakenUp(g, g', s, CoreBind(s, sessionId, generation))
            else Refused(g, g', s, AuthFailed) && g'.authentications == g.authentications
  {
    if gatewayId == g.config.gatewayId {
      ThisGatewayIsTakenUp(g, s, nowMs, sessionId, generation);
    } else {
      OtherGatewayIsRefused(g, s, nowMs, sessionId, generation, gatewayId);
    }
  }

  /** Whatever else a newcomer says first is refused. */
  lemma OtherFirstMessagesAreRefused(g: State, s: Socket, nowMs: int, message: SignalMessage)
    requires Inv(g) && Newcomer(g, s, nowMs) && !message.BindViewer? && !message.BindCore?
    ensures var g' := Step(g, Receive(s, nowMs, Signal(message)));
            Refused(g, g', s, AuthFailed) && g'.authentications == g.authentications
  {
    FirstMessageBegins(g, s, nowMs, message);
    RejectRefuses(MarkedAsBinding(g, s, nowMs), s, AuthFailed);
  }

  // ------------------------------------------------------------ resumed binds

  /** A place for this role in this generation: its slot is free, or a new pairing may be opened. */
  predicate HasPlace(g: State, sessionId: string, generation: nat, role: Role) {
    var key := PairingKey.Key(sessionId, generation);
    if key in g.pairs then SlotOf(g.pairs[key], role).None? else |g.pairs| < g.config.maxPendingPairs
  }

  /** An authorized Core is bound exactly when it is still there and has a place; otherwise it is told why. */
  lemma CoreIsBoundIffAuthorizedWithPlace(g: State, id: nat, allowed: bool)
    requires Inv(g) && Enabled(g, CoreAuthorized(id, allowed))
    ensures var bind, g' := g.authentications[id], Step(g, CoreAuthorized(id, allowed));
            var s := bind.socket;
            && (Binds(g, CoreAuthorized(id, allowed)).Some?
                <==> allowed && s in g.open && s in g.connections && HasPlace(g, bind.sessionId, bind.viewerGeneration, Core))
            && (Binds(g, CoreAuthorized(id, allowed)).None? ==>
                  Refused(g, g', s, if allowed && s in g.open && s in g.connections then PairConflict else AuthFailed))
  {
    var bind, g0 := g.authentications[id], g.(authentications := g.authentications - {id});
    RejectRefuses(g0, bind.socket, AuthFailed);
    RejectRefuses(g0, bind.socket, PairConflict);
  }

  lemma EnteredPairing(g: State, q: Pairing, s: Socket, role: Role, claims: Option<Claims>)
    requires SlotOf(q, role).None?
    ensures var p := Settled(Fill(q, s, role, claims));
            && SlotOf(p, role) == Some(s) && SlotOf(p, Opposite(role)) == SlotOf(q, Opposite(role)) && p.key == q.key && p.id == q.id
  {
  }

  /** The completion of a pairing that just became full. */
  predicate CompletionOf(c: Completion, p: Pairing, binder: Socket) {
    && c.pairingId == p.id && c.key == p.key && p.core == Some(c.core) && p.viewer == Some(c.viewer) && p.claims == Some(c.claims)
    && c.binder == binder && c.first
  }

  /** A bind sends nothing and ends its suspension; if its partner is there already, their completion starts and the timer stops. */
  lemma BindTakesEffect(g: State, e: Event)
    requires Inv(g) && Enabled(g, e) && Binds(g, e).Some?
    ensures var b, g' := Binds(g, e).value, Step(g, e);
            && g'.sent == g.sent && g'.open == g.open && g'.connections == g.connections
            && g'.authentications == g.authentications - {b.id}
            && b.record.key in g'.pairs
            && var p := g'.pairs[b.record.key];
            && SlotOf(p, b.role) == Some(b.socket) && SlotOf(p, Opposite(b.role)) == SlotOf(b.record, Opposite(b.role))
            && if p.core.Some? && p.viewer.Some?
               then !p.timerArmed && g.nextId + 1 in g'.completions && CompletionOf(g'.completions[g.nextId + 1], p, b.socket)
                    && g'.completions == g.completions[g.nextId + 1 := g'.completions[g.nextId + 1]]
               else p.timerArmed && g'.completions == g.completions
  {
    var b, g' := Binds(g, e).value, Step(g, e);
    BindingAgrees(g, e);
    BindingStep(g, e);
    EnterFields(Primed(g, e), Fill(b.record, b.socket, b.role, b.claims), b.socket, b.role);
    PrimedFields(g, e);
    EnteredPairing(g, b.record, b.socket, b.role, b.claims);
    assert PairPlaced(g'.pairs, g'.peers, b.record.key);
  }

  lemma PrimedFields(g: State, e: Event)
    requires Enabled(g, e) && Binds(g, e).Some?
    ensures var p := Primed(g, e);
            && p.sent == g.sent && p.open == g.open && p.connections == g.connections && p.completions == g.completions
            && p.nextId == g.nextId && p.authentications == g.authentications - {Binds(g, e).value.id}
  {
  }

  /** In any run a ticket that is not bound is refused with the reason that applies first. */
  lemma RefusedTicketIsToldWhy(ws: seq<World>, es: seq<Event>, expiry: string -> int, n: nat, id: nat, claims: Claims, now: int)
    requires IsRun(ws, es, expiry) && n <= |es|
    requires Enabled(ws[n].g, TicketVerified(id, Some(claims), now))
    requires ws[n].h.unixClock <= now && claims.expiresAt == expiry(claims.jti)
    requires Burns(ws[n].g, TicketVerified(id, Some(claims), now)).None?
    ensures var g := ws[n].g; var s := g.authentications[id].socket;
            Refused(g, Step(g, TicketVerified(id, Some(claims), now)), s,
              if s !in g.open || s !in g.connections || claims.gatewayId != g.config.gatewayId then AuthFailed
              else if now < claims.issuedAt - 60 || claims.expiresAt <= now then TicketExpired
              else if claims.jti in ws[n].h.burnt then TicketReplayed
              else PairConflict)
  {
    EveryRunKeepsInv(ws, es, expiry, n);
    var g := ws[n].g;
    if now < claims.expiresAt {
      PrunedTableRefinesSet(g.consumedTickets, ws[n].h.burnt, ws[n].h.unixClock, expiry, claims.jti, now);
    }
    UnboundTicketIsRefused(g, id, claims, now);
  }

  lemma UnboundTicketIsRefused(g: State, id: nat, claims: Claims, now: int)
    requires Enabled(g, TicketVerified(id, Some(claims), now)) && TicketBinding(g, id, Some(claims), now).None?
    ensures var s := g.authentications[id].socket;
            Refused(g, Step(g, TicketVerified(id, Some(claims), now)), s,
              if s !in g.open || s !in g.connections || claims.gatewayId != g.config.gatewayId then AuthFailed
              else if now < claims.issuedAt - 60 || claims.expiresAt <= now then TicketExpired
              else if claims.jti in Prune(g.consumedTickets, now) then TicketReplayed
              else PairConflict)
  {
    var s, g0 := g.authentications[id].socket, g.(authentications := g.authentications - {id});
    if !ConnectionOpen(g, s) {
      RejectRefuses(g0, s, AuthFailed);
    } else {
      RefusalIgnoresBinds(g, id, claims, now);
      var g1 := g0.(consumedTickets := Prune(g.consumedTickets, now));
      RejectRefuses(g1, s, TicketRefusal(g1, claims, now).value);
    }
  }

  /** A ticket the verifier rejects is refused as such. */
  lemma UnverifiedTicketIsRefused(g: State, id: nat, now: int)
    requires Enabled(g, TicketVerified(id, None, now))
    ensures Refused(g, Step(g, TicketVerified(id, None, now)), g.authentications[id].socket, AuthFailed)
  {
    RejectRefuses(g.(authentications := g.authentications - {id}), g.authentications[id].socket, AuthFailed);
  }

  // -------------------------------------------------------- completing a pair

  /** A lookup that fails refuses the binder; one that finds the pair broken ends it in silence; the first good one leads to the second. */
  lemma LookupGoesOn(g: State, id: nat, found: bool)
    requires Inv(g) && Enabled(g, IceServers(id, found))
    ensures var c, g' := g.completions[id], Step(g, IceServers(id, found));
            && (!found ==> Refused(g, g', c.binder, MessageInvalid) && g'.completions == g.completions - {id})
            && (found && !PairCurrent(g, c) ==> g'.sent == g.sent && g'.open == g.open && g'.completions == g.completions - {id})
            && (found && PairCurrent(g, c) && c.first ==>
                  g'.sent == g.sent && g'.open == g.open && g'.completions == g.completions[id := c.(first := false)])
            && (found && PairCurrent(g, c) && !c.first ==>
                  && g'.open == g.open && g'.completions == g.completions - {id}
                  && g'.sent == g.sent + Handshake(CoupleOf(c), c.claims))
  {
    var c, g0 := g.completions[id], g.(completions := g.completions - {id});
    RejectRefuses(g0, c.binder, MessageInvalid);
    RejectFields(g0, c.binder, MessageInvalid);
    if PairCurrent(g, c) {
      AnnounceSends(g0, c);
      AnnounceFields(g0, c);
    }
  }

  /** In any run: two good lookups in a row complete a couple whose members are still bound and open. */
  lemma CoupleCompletes(ws: seq<World>, es: seq<Event>, expiry: string -> int, n: nat, id: nat)
    requires IsRun(ws, es, expiry) && n <= |es| && id in ws[n].g.completions && ws[n].g.completions[id].first
    requires var g := ws[n].g; var c := g.completions[id];
             c.core in g.peers && c.viewer in g.peers && c.core in g.open && c.viewer in g.open
    ensures var g := ws[n].g; var c := g.completions[id];
            var g1 := Step(g, IceServers(id, true));
            && Enabled(g1, IceServers(id, true))
            && Step(g1, IceServers(id, true)).sent == g.sent + Handshake(CoupleOf(c), c.claims)
  {
    EveryRunKeepsInv(ws, es, expiry, n);
    CurrentMeansStillBoundAndOpen(ws, es, expiry, n, id);
    var g := ws[n].g;
    var g1 := Step(g, IceServers(id, true));
    LookupGoesOn(g, id, true);
    IceIsQuiet(g, id, true);
    StepKeepsInv(g, IceServers(id, true));
    assert PairCurrent(g1, g1.completions[id]);
    LookupGoesOn(g1, id, true);
  }

  // ------------------------------------------------------------ small listeners

  /** When its bind is over a live open peer may speak again, and nothing else changed. */
  lemma FinishedBindMaySpeak(g: State, s: Socket)
    requires Enabled(g, BindFinished(s)) && s in g.open && s in g.connections
    ensures var g' := Step(g, BindFinished(s));
            && g' == g.(connections := g'.connections) && g'.connections.Keys == g.connections.Keys
            && g'.connections[s] == g.connections[s].(bindInProgress := false)
            && forall t :: t in g.connections && t != s ==> g'.connections[t] == g.connections[t]
  {
  }

  /** A socket that did not authenticate in time is told so and closed. */
  lemma LateSocketIsRefused(g: State, s: Socket)
    requires Enabled(g, BindTimeout(s))
    ensures Refused(g, Step(g, BindTimeout(s)), s, AuthFailed)
  {
    SendFields(g, s, Failure(AuthFailed));
  }

  /** A socket that is gone holds no connection, no peer and no slot; every other connection and peer stays. */
  lemma GoneSocketLeavesEverything(g: State, s: Socket)
    requires Inv(g)
    ensures var g' := Step(g, Gone(s));
            && g'.peers == g.peers - {s} && g'.connections == g.connections - {s} && g'.open == g.open
            && forall key :: key in g'.pairs ==> g'.pairs[key].core != Some(s) && g'.pairs[key].viewer != Some(s)
  {
    GoneFields(g, s);
    WithoutPeerKeeps(g, s);
    DropCounts(WithoutPeer(g, s), s);
    WithoutPeerFields(g, s);
    GoneKeeps(g, s);
    var g' := Step(g, Gone(s));
    forall key | key in g'.pairs ensures g'.pairs[key].core != Some(s) && g'.pairs[key].viewer != Some(s) {
      assert PairPlaced(g'.pairs, g'.peers, key);
    }
  }

  /** The slot of this role is free, the rest of the pairing as it was, and a new timer waits for a successor. */
  ghost predicate Vacated(p: Pairing, p': Pairing, role: Role) {
    && p'.key == p.key && p'.id == p.id && p'.sessionId == p.sessionId && p'.viewerGeneration == p.viewerGeneration
    && SlotOf(p', role).None? && SlotOf(p', Opposite(role)) == SlotOf(p, Opposite(role)) && p'.timerArmed
    && p'.claims == if role.Viewer? then None else p.claims
  }

  lemma LeftVacates(pairs: map<string, Pairing>, peers: map<Socket, BoundPeer>, s: Socket)
    requires s in peers && PeerPlaced(pairs, peers, s)
    ensures var key, pairs' := peers[s].key, Left(pairs, peers, s);
            && key in pairs && pairs'.Keys == pairs.Keys && Vacated(pairs[key], pairs'[key], peers[s].role)
            && forall k :: k in pairs && k != key ==> pairs'[k] == pairs[k]
  {
  }

  lemma WithoutPeerLeaves(g: State, s: Socket)
    requires s in g.peers
    ensures WithoutPeer(g, s).pairs == Left(g.pairs, g.peers, s)
  {
    var g1 := g.(peers := g.peers - {s}, pairs := Left(g.pairs, g.peers, s));
    if g.peers[s].key in g.pairs {
      var to, message := SlotOf(g1.pairs[g.peers[s].key], Opposite(g.peers[s].role)), PeerLeft(g.peers[s].role);
      NotifyKeepsPairs(g1, to, message);
    }
  }

  lemma NotifyKeepsPairs(g: State, to: Option<Socket>, message: Outgoing)
    ensures Notify(g, to, message).pairs == g.pairs
  {
    if to.Some? {
      SendFields(g, to.value, message);
    }
  }

  /** A lost peer frees its slot and nothing else; its pairing stays on file and waits for a successor. */
  lemma LostPeerFreesItsSlot(g: State, s: Socket)
    requires Inv(g) && s in g.peers
    ensures var pairs', key := Step(g, Gone(s)).pairs, g.peers[s].key;
            && key in g.pairs && pairs'.Keys == g.pairs.Keys && Vacated(g.pairs[key], pairs'[key], g.peers[s].role)
            && forall k :: k in g.pairs && k != key ==> pairs'[k] == g.pairs[k]
  {
    assert PeerPlaced(g.pairs, g.peers, s);
    GoneFields(g, s);
    WithoutPeerLeaves(g, s);
    LeftVacates(g.pairs, g.peers, s);
  }

  function Told(g: State, slot: Option<Socket>): seq<Delivery> {
    if slot.Some? && slot.value in g.open then [Delivery(slot.value, Failure(PairTimeout))] else []
  }

  /** A pairing whose time is over is forgotten, its members are told, closed and unbound, and nobody else is touched. */
  lemma ExpiryForgetsThePairing(g: State, key: string)
    requires Inv(g) && Enabled(g, PairTimer(key))
    ensures var g', p := Step(g, PairTimer(key)), g.pairs[key];
            && g'.pairs == g.pairs - {key} && g'.connections == g.connections && g'.consumedTickets == g.consumedTickets
            && g'.sent == g.sent + Told(g, p.core) + Told(g, p.viewer)
            && forall s :: (s in g'.peers <==> s in g.peers && g.peers[s].key != key)
                        && (s in g'.open <==> s in g.open && !(s in g.peers && g.peers[s].key == key))
  {
    var p, g0 := g.pairs[key], g.(pairs := g.pairs - {key});
    ExpireFields(g, key);
    EvictTells(g0, p.core);
    EvictFields(g0, p.core);
    EvictTells(Evict(g0, p.core), p.viewer);
    assert PairPlaced(g.pairs, g.peers, key);
    forall s ensures s in Members(p) <==> s in g.peers && g.peers[s].key == key {
      if s in g.peers {
        assert PeerPlaced(g.pairs, g.peers, s);
      }
    }
  }

  /** Pruning forgets exactly the tickets whose time is over. */
  lemma PruningForgetsTheExpired(g: State, now: int, jti: string)
    ensures var consumed' := Step(g, Metrics(now)).consumedTickets;
            && (jti in consumed' <==> jti in g.consumedTickets && now < g.consumedTickets[jti])
            && (jti in consumed' ==> consumed'[jti] == g.consumedTickets[jti])
  {
  }

  // ------------------------------------------- what a suspended bind was asked

  /** A step suspends a bind only for the message it receives, and leaves the suspended ones as they are. */
  ghost predicate AuthsFramed(auths: map<nat, Authentication>, auths': map<nat, Authentication>, nextId: nat, asked: Option<Authentication>) {
    forall id :: id in auths' ==> (id in auths && auths'[id] == auths[id]) || (id == nextId && asked == Some(auths'[id]))
  }

  /** The bind a received message asks for, if it names this Gateway. */
  function AskedFor(g: State, e: Event): Option<Authentication> {
    if !e.Receive? || e.frame.Malformed? then None
    else match e.frame.message
      case BindViewer(_) => Some(ViewerBind(e.socket))
      case BindCore(sessionId, generation, gatewayId) =>
        if gatewayId == g.config.gatewayId then Some(CoreBind(e.socket, sessionId, generation)) else None
      case _ => None
  }

  lemma RelayKeepsAuths(g: State, s: Socket, message: SignalMessage)
    requires s in g.peers
    ensures RelayStep(g, s, message).authentications == g.authentications
  {
    var r := RelayTarget(g, s, message);
    if r.Ok? {
      SendFields(g, r.value, Relayed(message));
    } else {
      RejectRefuses(g, s, r.error);
    }
  }

  lemma BeginFramesAuths(g: State, s: Socket, nowMs: int, message: SignalMessage)
    ensures AuthsFramed(g.authentications, BeginBind(g, s, message).authentications, g.nextId, AskedFor(g, Receive(s, nowMs, Signal(message))))
  {
    RejectRefuses(g, s, AuthFailed);
  }

  lemma DispatchFramesAuths(g: State, s: Socket, nowMs: int, frame: Frame)
    requires s in g.connections
    ensures AuthsFramed(g.authentications, DispatchStep(g, s, frame).authentications, g.nextId, AskedFor(g, Receive(s, nowMs, frame)))
  {
    if g.connections[s].bindInProgress {
      RejectRefuses(g, s, AuthFailed);
    } else if frame.Malformed? {
      RejectRefuses(g, s, MessageInvalid);
    } else if s in g.peers {
      RelayKeepsAuths(g, s, frame.message);
    } else {
      MarkedBeginFramesAuths(g, s, nowMs, frame.message);
    }
  }

  lemma MarkedBeginFramesAuths(g: State, s: Socket, nowMs: int, message: SignalMessage)
    requires s in g.connections
    ensures var g1 := g.(connections := g.connections[s := g.connections[s].(bindInProgress := true)]);
            AuthsFramed(g.authentications, BeginBind(g1, s, message).authentications, g.nextId, AskedFor(g, Receive(s, nowMs, Signal(message))))
  {
    BeginFramesAuths(g.(connections := g.connections[s := g.connections[s].(bindInProgress := true)]), s, nowMs, message);
  }

  lemma ReceiveFramesAuths(g: State, s: Socket, nowMs: int, frame: Frame)
    ensures AuthsFramed(g.authentications, ReceiveStep(g, s, nowMs, frame).authentications, g.nextId, AskedFor(g, Receive(s, nowMs, frame)))
  {
    if s in g.connections {
      var g1 := CountStep(g, s, nowMs);
      GoneKeepsBinds(g1, s);
      DispatchFramesAuths(g1, s, nowMs, frame);
      assert AskedFor(g1, Receive(s, nowMs, frame)) == AskedFor(g, Receive(s, nowMs, frame));
    }
  }

  lemma ResumedBindIsForgotten(g: State, e: Event)
    requires Inv(g) && Enabled(g, e) && (e.TicketVerified? || e.CoreAuthorized?)
    ensures Step(g, e).authentications == g.authentications - {e.id}
  {
    if Binds(g, e).Some? {
      BindTakesEffect(g, e);
    } else if e.TicketVerified? {
      RefusedTicketForgets(g, e.id, e.claims, e.now);
    } else {
      RefusedCoreForgets(g, e.id, e.allowed);
    }
  }

  lemma RefusedCoreForgets(g: State, id: nat, allowed: bool)
    requires id in g.authentications && g.authentications[id].CoreBind? && CoreBinding(g, id, allowed).None?
    ensures CoreStep(g, id, allowed).authentications == g.authentications - {id}
  {
    var g0 := g.(authentications := g.authentications - {id});
    RejectRefuses(g0, g.authentications[id].socket, AuthFailed);
    RejectRefuses(g0, g.authentications[id].socket, PairConflict);
  }

  lemma RefusedTicketForgets(g: State, id: nat, claims: Option<Claims>, now: int)
    requires id in g.authentications && TicketBinding(g, id, claims, now).None?
    ensures TicketStep(g, id, claims, now).authentications == g.authentications - {id}
  {
    var s, g0 := g.authentications[id].socket, g.(authentications := g.authentications - {id});
    if !ConnectionOpen(g, s) || claims.None? {
      RejectRefuses(g0, s, AuthFailed);
    } else {
      RefusalIgnoresBinds(g, id, claims.value, now);
      var g1 := g0.(consumedTickets := Prune(g.consumedTickets, now));
      RejectRefuses(g1, s, TicketRefusal(g1, claims.value, now).value);
    }
  }

  lemma LookupKeepsAuths(g: State, id: nat, found: bool)
    requires id in g.completions
    ensures IceStep(g, id, found).authentications == g.authentications
  {
    var g0 := g.(completions := g.completions - {id});
    RejectRefuses(g0, g.completions[id].binder, MessageInvalid);
    AnnounceFields(g0, g.completions[id]);
  }

  lemma OtherStepsKeepAuths(g: State, e: Event)
    requires Inv(g) && Enabled(g, e) && !e.Receive? && !e.TicketVerified? && !e.CoreAuthorized?
    ensures Step(g, e).authentications == g.authentications
  {
    match e {
      case Accept(s, address, nowMs) => AcceptFields(g, s, address, nowMs);
      case IceServers(id, found) => LookupKeepsAuths(g, id, found);
      case BindTimeout(s) => SendFields(g, s, Failure(AuthFailed));
      case Gone(s) => GoneKeepsBinds(g, s);
      case PairTimer(key) => ExpireFields(g, key);
      case _ =>
    }
  }

  lemma StepFramesAuths(g: State, e: Event)
    requires Inv(g) && Enabled(g, e)
    ensures AuthsFramed(g.authentications, Step(g, e).authentications, g.nextId, AskedFor(g, e))
  {
    match e {
      case Receive(s, nowMs, frame) => ReceiveFramesAuths(g, s, nowMs, frame);
      case TicketVerified(_, _, _) => ResumedBindIsForgotten(g, e);
      case CoreAuthorized(_, _) => ResumedBindIsForgotten(g, e);
      case _ => OtherStepsKeepAuths(g, e);
    }
  }

  /** Some earlier message of the run asked for this bind, of this Gateway. */
  ghost predicate Asked(ws: seq<World>, es: seq<Event>, n: nat, bind: Authentication)
    requires |ws| == |es| + 1 && n <= |es|
  {
    exists m :: 0 <= m < n && AskedFor(ws[m].g, es[m]) == Some(bind)
  }

  lemma AskedBefore(ws: seq<World>, es: seq<Event>, expiry: string -> int, n: nat, id: nat)
    requires IsRun(ws, es, expiry) && n < |es| && id in ws[n + 1].g.authentications
    requires id in ws[n].g.authentications ==> Asked(ws, es, n, ws[n].g.authentications[id])
    ensures Asked(ws, es, n + 1, ws[n + 1].g.authentications[id])
  {
    EveryRunKeepsInv(ws, es, expiry, n);
    assert Follows(ws, es, expiry, n);
    StepFramesAuths(ws[n].g, es[n]);
    if id in ws[n].g.authentications && ws[n + 1].g.authentications[id] == ws[n].g.authentications[id] {
      var m :| 0 <= m < n && AskedFor(ws[m].g, es[m]) == Some(ws[n].g.authentications[id]);
      assert AskedFor(ws[m].g, es[m]) == Some(ws[n + 1].g.authentications[id]);
    } else {
      assert AskedFor(ws[n].g, es[n]) == Some(ws[n + 1].g.authentications[id]);
    }
  }

  lemma {:induction false} SuspendedBindsWereAsked(ws: seq<World>, es: seq<Event>, expiry: string -> int, n: nat, id: nat)
    requires IsRun(ws, es, expiry) && n <= |es| && id in ws[n].g.authentications
    ensures Asked(ws, es, n, ws[n].g.authentications[id])
  {
    if n > 0 {
      if id in ws[n - 1].g.authentications {
        SuspendedBindsWereAsked(ws, es, expiry, n - 1, id);
      }
      AskedBefore(ws, es, expiry, n - 1, id);
    }
  }

  /**
   In any run every Core that is bound had named this Gateway, and the very Session and generation it is
   bound to; every Viewer had presented a ticket.
   */
  lemma BoundSocketsHadAsked(ws: seq<World>, es: seq<Event>, expiry: string -> int, n: nat)
    requires IsRun(ws, es, expiry) && n < |es| && Binds(ws[n].g, es[n]).Some?
    ensures var b := Binds(ws[n].g, es[n]).value;
            exists m :: 0 <= m < n && es[m].Receive? && es[m].socket == b.socket && es[m].frame.Signal?
              && if b.role.Core?
                 then es[m].frame.message == BindCore(b.record.sessionId, b.record.viewerGeneration, ws[m].g.config.gatewayId)
                 else es[m].frame.message.BindViewer?
  {
    EveryRunKeepsInv(ws, es, expiry, n);
    var g, e := ws[n].g, es[n];
    var b := Binds(g, e).value;
    SuspendedBindsWereAsked(ws, es, expiry, n, b.id);
    if e.CoreAuthorized? {
      GetOrCreateIsJoinable(g, g.authentications[e.id].sessionId, g.authentications[e.id].viewerGeneration);
    }
    var m :| 0 <= m < n && AskedFor(ws[m].g, es[m]) == Some(g.authentications[b.id]);
  }
}
