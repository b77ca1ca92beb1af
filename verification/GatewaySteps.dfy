/** How a step of the Gateway may change its maps: what stays, what leaves, and what a bind adds. */
module GatewaySteps {
  import opened Common
  import opened Gateway
  import opened GatewayInvariant

  // ---------------------------------------------------- how a step may change

  /** Sockets never come back, and what stops being a peer stops being a live connection. */
  ghost predicate SocketFramed(g: State, g': State, s: Socket) {
    && (s in g.seen ==> s in g'.seen && (s in g'.open ==> s in g.open) && (s in g'.connections ==> s in g.connections))
    && (s in g.peers && s !in g'.peers ==> s !in g'.open || s !in g'.connections)
    && (s !in g.peers && s in g'.peers ==> s in g.open && s in g.connections)
    && (s in g.peers && s in g'.peers ==> g'.peers[s] == g.peers[s])
  }

  /** While a peer stays, its pairing keeps its identity, and a Viewer's keeps its claims. */
  ghost predicate RecordFramed(pairs: map<string, Pairing>, peers: map<Socket, BoundPeer>, pairs': map<string, Pairing>, peers': map<Socket, BoundPeer>, s: Socket) {
    s in peers && s in peers' ==>
      var key := peers[s].key;
      && key in pairs && key in pairs' && pairs'[key].id == pairs[key].id
      && (peers[s].role.Viewer? ==> pairs'[key].claims == pairs[key].claims)
  }

  ghost predicate Framed(g: State, g': State) {
    && g'.config == g.config && g.seen <= g'.seen
    && (forall s {:trigger SocketFramed(g, g', s)} :: SocketFramed(g, g', s))
    && (forall s {:trigger RecordFramed(g.pairs, g.peers, g'.pairs, g'.peers, s)} :: RecordFramed(g.pairs, g.peers, g'.pairs, g'.peers, s))
  }

  /** A step that neither binds nor removes anyone. */
  ghost predicate Quiet(g: State, g': State) {
    g'.peers == g.peers && g'.pairs == g.pairs && g'.open <= g.open && g'.connections.Keys <= g.connections.Keys && g'.seen == g.seen && g'.config == g.config
  }

  lemma QuietIsFramed(g: State, g': State)
    requires Inv(g) && Quiet(g, g')
    ensures Framed(g, g')
  {
    forall s ensures RecordFramed(g.pairs, g.peers, g'.pairs, g'.peers, s) {
      assert PeerPlaced(g.pairs, g.peers, s);
    }
  }

  lemma VacateFramesRecord(pairs: map<string, Pairing>, peers: map<Socket, BoundPeer>, s: Socket, t: Socket)
    requires s in peers && PeerPlaced(pairs, peers, s) && PeerPlaced(pairs, peers, t)
    ensures RecordFramed(pairs, peers, pairs[peers[s].key := Emptied(pairs[peers[s].key], peers[s].role)], peers - {s}, t)
  {
  }

  lemma WithoutPeerPairs(g: State, s: Socket)
    requires s in g.peers && PeerPlaced(g.pairs, g.peers, s)
    ensures WithoutPeer(g, s).pairs == g.pairs[g.peers[s].key := Emptied(g.pairs[g.peers[s].key], g.peers[s].role)]
  {
  }

  lemma WithoutPeerFramesRecords(g: State, s: Socket)
    requires Agree(g.pairs, g.peers)
    ensures forall t :: RecordFramed(g.pairs, g.peers, WithoutPeer(g, s).pairs, g.peers - {s}, t)
  {
    forall t ensures RecordFramed(g.pairs, g.peers, WithoutPeer(g, s).pairs, g.peers - {s}, t) {
      assert PeerPlaced(g.pairs, g.peers, s) && PeerPlaced(g.pairs, g.peers, t);
      if s in g.peers {
        WithoutPeerPairs(g, s);
        VacateFramesRecord(g.pairs, g.peers, s, t);
      } else {
        assert WithoutPeer(g, s) == g;
      }
    }
  }

  lemma GoneIsFramed(g: State, g': State, s: Socket)
    requires Inv(g)
    requires g'.peers == g.peers - {s} && g'.pairs == WithoutPeer(g, s).pairs && s !in g'.connections
    requires g'.open <= g.open && g'.connections.Keys <= g.connections.Keys && g'.seen == g.seen && g'.config == g.config
    ensures Framed(g, g')
  {
    WithoutPeerFramesRecords(g, s);
    forall t ensures SocketFramed(g, g', t) {
    }
  }

  lemma ExpireIsFramed(g: State, key: string)
    requires Inv(g) && key in g.pairs
    ensures Framed(g, ExpireStep(g, key))
  {
    var g' := ExpireStep(g, key);
    ExpireFields(g, key);
    DeletePairAgrees(g.pairs, g.peers, key);
    forall t ensures SocketFramed(g, g', t) && RecordFramed(g.pairs, g.peers, g'.pairs, g'.peers, t) {
      assert PeerPlaced(g.pairs, g.peers, t);
    }
  }

  lemma AcceptIsFramed(g: State, s: Socket, address: string, nowMs: int)
    requires Inv(g) && s !in g.seen
    ensures Framed(g, AcceptStep(g, s, address, nowMs))
  {
    var g' := AcceptStep(g, s, address, nowMs);
    AcceptFields(g, s, address, nowMs);
    forall t ensures SocketFramed(g, g', t) && RecordFramed(g.pairs, g.peers, g'.pairs, g'.peers, t) {
      assert PeerPlaced(g.pairs, g.peers, t);
    }
  }

  lemma EnterIsFramed(g: State, g0: State, q: Pairing, s: Socket, role: Role, claims: Option<Claims>)
    requires Inv(g) && s !in g.peers && ConnectionOpen(g, s)
    requires Joinable(g.pairs, q, g.nextId, g.config.maxPendingPairs) && SlotOf(q, role).None?
    requires Quiet(g, g0)
    ensures Framed(g, EnterPairing(g0, Fill(q, s, role, claims), s, role))
  {
    var p := Fill(q, s, role, claims);
    var g' := EnterPairing(g0, p, s, role);
    EnterFields(g0, p, s, role);
    forall t ensures SocketFramed(g, g', t) {
    }
    forall t ensures RecordFramed(g.pairs, g.peers, g'.pairs, g'.peers, t) {
      assert PeerPlaced(g.pairs, g.peers, t);
    }
  }

  // ----------------------------------------------------------- how binds run

  /** The socket, role and record a step binds, if it binds one. */
  datatype Binding = Binding(id: nat, socket: Socket, role: Role, record: Pairing, claims: Option<Claims>)

  function TicketBinding(g: State, id: nat, claims: Option<Claims>, now: int): Option<Binding>
    requires id in g.authentications
  {
    var g1 := g.(consumedTickets := Prune(g.consumedTickets, now));
    if !ConnectionOpen(g, g.authentications[id].socket) || claims.None? || TicketRefusal(g1, claims.value, now).Some? then None
    else Some(Binding(id, g.authentications[id].socket, Viewer,
                      GetOrCreatePairing(g, claims.value.sessionId, claims.value.viewerGeneration).value, claims))
  }

  function CoreBinding(g: State, id: nat, allowed: bool): Option<Binding>
    requires id in g.authentications && g.authentications[id].CoreBind?
  {
    var bind := g.authentications[id];
    var q := GetOrCreatePairing(g, bind.sessionId, bind.viewerGeneration);
    if !ConnectionOpen(g, bind.socket) || !allowed || q.None? || q.value.core.Some? then None
    else Some(Binding(id, bind.socket, Core, q.value, None))
  }

  function Binds(g: State, e: Event): Option<Binding> {
    if !Enabled(g, e) then None
    else match e
    case TicketVerified(id, claims, now) => TicketBinding(g, id, claims, now)
    case CoreAuthorized(id, allowed) => CoreBinding(g, id, allowed)
    case _ => None
  }

  /** The state just before a binding enters its socket. */
  function Primed(g: State, e: Event): State
    requires Enabled(g, e)
  {
    match e
    case TicketVerified(id, Some(claims), now) =>
      g.(authentications := g.authentications - {id}, consumedTickets := Prune(g.consumedTickets, now)[claims.jti := claims.expiresAt])
    case CoreAuthorized(id, _) => g.(authentications := g.authentications - {id})
    case _ => g
  }

  ghost predicate BindsAs(g: State, e: Event, b: Binding)
    requires Enabled(g, e)
  {
    && b.socket !in g.peers && ConnectionOpen(g, b.socket)
    && Joinable(g.pairs, b.record, g.nextId, g.config.maxPendingPairs) && SlotOf(b.record, b.role).None?
    && Step(g, e) == EnterPairing(Primed(g, e), Fill(b.record, b.socket, b.role, b.claims), b.socket, b.role)
  }

  lemma TicketBindingStep(g: State, id: nat, claims: Claims, now: int)
    requires Inv(g) && Enabled(g, TicketVerified(id, Some(claims), now)) && TicketBinding(g, id, Some(claims), now).Some?
    ensures BindsAs(g, TicketVerified(id, Some(claims), now), TicketBinding(g, id, Some(claims), now).value)
  {
    assert Waiting(g.authentications, g.open, g.connections, g.peers, id);
    GetOrCreateIsJoinable(g, claims.sessionId, claims.viewerGeneration);
    TicketBindingEnters(g, id, claims, now);
  }

  lemma TicketBindingEnters(g: State, id: nat, claims: Claims, now: int)
    requires Enabled(g, TicketVerified(id, Some(claims), now)) && TicketBinding(g, id, Some(claims), now).Some?
    ensures var b := TicketBinding(g, id, Some(claims), now).value;
            TicketStep(g, id, Some(claims), now)
            == EnterPairing(Primed(g, TicketVerified(id, Some(claims), now)), Fill(b.record, b.socket, Viewer, Some(claims)), b.socket, Viewer)
  {
    RefusalIgnoresBinds(g, id, claims, now);
    var g2 := g.(authentications := g.authentications - {id}, consumedTickets := Prune(g.consumedTickets, now));
    assert GetOrCreatePairing(g2, claims.sessionId, claims.viewerGeneration) == GetOrCreatePairing(g, claims.sessionId, claims.viewerGeneration);
  }

  lemma CoreBindingStep(g: State, id: nat, allowed: bool)
    requires Inv(g) && Enabled(g, CoreAuthorized(id, allowed)) && CoreBinding(g, id, allowed).Some?
    ensures BindsAs(g, CoreAuthorized(id, allowed), CoreBinding(g, id, allowed).value)
  {
    assert Waiting(g.authentications, g.open, g.connections, g.peers, id);
    GetOrCreateIsJoinable(g, g.authentications[id].sessionId, g.authentications[id].viewerGeneration);
  }

  /** Everything a binding step does, and why it may. */
  lemma BindingStep(g: State, e: Event)
    requires Inv(g) && Enabled(g, e) && Binds(g, e).Some?
    ensures BindsAs(g, e, Binds(g, e).value)
  {
    match e {
      case TicketVerified(id, claims, now) => TicketBindingStep(g, id, claims.value, now);
      case CoreAuthorized(id, allowed) => CoreBindingStep(g, id, allowed);
    }
  }

  lemma RefusedTicketIsQuiet(g: State, id: nat, claims: Option<Claims>, now: int)
    requires Inv(g) && id in g.authentications && TicketBinding(g, id, claims, now).None?
    ensures var g' := TicketStep(g, id, claims, now);
            && Quiet(g, g') && g'.completions == g.completions
            && (g'.consumedTickets == g.consumedTickets || g'.consumedTickets == Prune(g.consumedTickets, now))
  {
    var s, g0 := g.authentications[id].socket, g.(authentications := g.authentications - {id});
    assert Inert(g, g0);
    if !ConnectionOpen(g, s) || claims.None? {
      RejectIsInert(g0, s, AuthFailed);
    } else {
      RefusalIgnoresBinds(g, id, claims.value, now);
      var g1 := g0.(consumedTickets := Prune(g.consumedTickets, now));
      RejectIsInert(g1, s, TicketRefusal(g1, claims.value, now).value);
    }
  }

  lemma RefusalIgnoresBinds(g: State, id: nat, claims: Claims, now: int)
    ensures var g1 := g.(consumedTickets := Prune(g.consumedTickets, now));
            TicketRefusal(g1, claims, now) == TicketRefusal(g1.(authentications := g.authentications - {id}), claims, now)
  {
  }

  lemma RefusedCoreIsQuiet(g: State, id: nat, allowed: bool)
    requires Inv(g) && id in g.authentications && g.authentications[id].CoreBind? && CoreBinding(g, id, allowed).None?
    ensures var g' := CoreStep(g, id, allowed);
            Quiet(g, g') && g'.completions == g.completions && g'.consumedTickets == g.consumedTickets
  {
    var bind, g0 := g.authentications[id], g.(authentications := g.authentications - {id});
    RejectFields(g0, bind.socket, AuthFailed);
    RejectFields(g0, bind.socket, PairConflict);
  }

  lemma IceIsQuiet(g: State, id: nat, found: bool)
    requires Inv(g) && id in g.completions
    ensures var g' := IceStep(g, id, found);
            && Quiet(g, g') && g'.consumedTickets == g.consumedTickets
            && g'.completions == if found && PairCurrent(g, g.completions[id]) && g.completions[id].first
                                 then g.completions[id := g.completions[id].(first := false)] else g.completions - {id}
  {
    var c, g0 := g.completions[id], g.(completions := g.completions - {id});
    RejectFields(g0, c.binder, MessageInvalid);
    AnnounceFields(g0, c);
  }

  lemma SendFields(g: State, to: Socket, message: Outgoing)
    ensures Send(g, to, message) == g.(sent := Send(g, to, message).sent)
  {
  }

  lemma AnnounceFields(g: State, c: Completion)
    ensures Announce(g, c) == g.(sent := Announce(g, c).sent)
  {
    var g1 := Send(g, c.core, Ready(Core, c.claims));
    SendFields(g, c.core, Ready(Core, c.claims));
    var g2 := Send(g1, c.viewer, Ready(Viewer, c.claims));
    SendFields(g1, c.viewer, Ready(Viewer, c.claims));
    SendFields(g2, c.core, PeerReady);
    SendFields(Send(g2, c.core, PeerReady), c.viewer, PeerReady);
  }

  lemma GoneFields(g: State, s: Socket)
    ensures var g' := WithoutConnection(WithoutPeer(g, s), s);
            && g'.peers == g.peers - {s} && g'.pairs == WithoutPeer(g, s).pairs && s !in g'.connections
            && g'.open == g.open && g'.connections.Keys <= g.connections.Keys && g'.seen == g.seen && g'.config == g.config
            && g'.completions == g.completions && g'.consumedTickets == g.consumedTickets
  {
    var g1 := WithoutPeer(g, s);
    WithoutPeerFields(g, s);
    assert g1.peers == g.peers - {s};
    var g' := WithoutConnection(g1, s);
    assert g' == g1.(connections := g'.connections, connectionsByAddress := g'.connectionsByAddress);
  }

  /** What a message changes besides the sender's own connection record. */
  ghost predicate Received(g: State, g': State, s: Socket) {
    && g'.completions == g.completions && g'.consumedTickets == g.consumedTickets
    && (Inert(g, g')
        || (g'.peers == g.peers - {s} && g'.pairs == WithoutPeer(g, s).pairs && s !in g'.connections
            && g'.open <= g.open && g'.connections.Keys <= g.connections.Keys && g'.seen == g.seen && g'.config == g.config))
  }

  /** A step that touches nothing but connection records, sockets and suspended binds. */
  ghost predicate Inert(g: State, g': State) {
    Quiet(g, g') && g'.completions == g.completions && g'.consumedTickets == g.consumedTickets
  }

  lemma RejectIsInert(g: State, s: Socket, code: ErrorCode)
    ensures Inert(g, RejectBindFailure(g, s, code))
  {
    RejectFields(g, s, code);
  }

  lemma RelayIsInert(g: State, s: Socket, message: SignalMessage)
    requires s in g.peers
    ensures Inert(g, RelayStep(g, s, message))
  {
    var r := RelayTarget(g, s, message);
    if r.Ok? {
      SendFields(g, r.value, Relayed(message));
    } else {
      RejectIsInert(g, s, r.error);
    }
  }

  lemma BeginIsInert(g: State, s: Socket, message: SignalMessage)
    ensures Inert(g, BeginBind(g, s, message))
  {
    RejectIsInert(g, s, AuthFailed);
  }

  lemma DispatchIsInert(g: State, s: Socket, frame: Frame)
    requires s in g.connections
    ensures Inert(g, DispatchStep(g, s, frame))
  {
    if g.connections[s].bindInProgress {
      RejectIsInert(g, s, AuthFailed);
    } else if frame.Malformed? {
      RejectIsInert(g, s, MessageInvalid);
    } else if s in g.peers {
      RelayIsInert(g, s, frame.message);
    } else {
      var g1 := g.(connections := g.connections[s := g.connections[s].(bindInProgress := true)]);
      assert Inert(g, g1);
      BeginIsInert(g1, s, frame.message);
    }
  }

  lemma WithoutPeerLeaves(g: State, s: Socket)
    ensures WithoutPeer(g, s).pairs == Left(g.pairs, g.peers, s)
  {
  }

  lemma OverRateIsReceived(g: State, s: Socket, nowMs: int)
    requires s in g.connections
    ensures Received(g, Closing(WithoutConnection(WithoutPeer(CountStep(g, s, nowMs), s), s), s), s)
  {
    var g1 := CountStep(g, s, nowMs);
    WithoutPeerLeaves(g, s);
    WithoutPeerLeaves(g1, s);
    GoneFields(g1, s);
    assert g1.connections.Keys == g.connections.Keys;
    var g2 := WithoutConnection(WithoutPeer(g1, s), s);
    assert Closing(g2, s) == g2.(open := g.open - {s});
  }

  lemma ReceiveIsReceived(g: State, s: Socket, nowMs: int, frame: Frame)
    ensures Received(g, ReceiveStep(g, s, nowMs, frame), s)
  {
    if s in g.connections {
      OverRateIsReceived(g, s, nowMs);
      DispatchIsInert(CountStep(g, s, nowMs), s, frame);
      assert Inert(g, CountStep(g, s, nowMs));
    }
  }

  lemma ReceiveIsFramed(g: State, s: Socket, nowMs: int, frame: Frame)
    requires Inv(g)
    ensures Framed(g, ReceiveStep(g, s, nowMs, frame))
  {
    var g' := ReceiveStep(g, s, nowMs, frame);
    ReceiveIsReceived(g, s, nowMs, frame);
    if Inert(g, g') {
      QuietIsFramed(g, g');
    } else {
      GoneIsFramed(g, g', s);
    }
  }

  lemma PrimedIsQuiet(g: State, e: Event)
    requires Enabled(g, e)
    ensures Quiet(g, Primed(g, e)) && Primed(g, e).completions == g.completions && Primed(g, e).nextId == g.nextId
  {
  }

  lemma BindingIsFramed(g: State, e: Event)
    requires Inv(g) && Enabled(g, e) && Binds(g, e).Some?
    ensures Framed(g, Step(g, e))
  {
    var b := Binds(g, e).value;
    BindingStep(g, e);
    PrimedIsQuiet(g, e);
    EnterIsFramed(g, Primed(g, e), b.record, b.socket, b.role, b.claims);
  }

  lemma SimpleIsQuiet(g: State, e: Event)
    requires Enabled(g, e) && (e.BindFinished? || e.BindTimeout? || e.NotOpen? || e.Metrics?)
    ensures var g' := Step(g, e);
            && Quiet(g, g') && g'.completions == g.completions
            && g'.consumedTickets == if e.Metrics? then Prune(g.consumedTickets, e.now) else g.consumedTickets
  {
    match e {
      case BindTimeout(s) => SendFields(g, s, Failure(AuthFailed));
      case _ =>
    }
  }

  lemma StepIsFramed(g: State, e: Event)
    requires Inv(g) && Enabled(g, e)
    ensures Framed(g, Step(g, e))
  {
    if Binds(g, e).Some? {
      BindingIsFramed(g, e);
    } else {
      match e {
        case Accept(s, address, nowMs) => AcceptIsFramed(g, s, address, nowMs);
        case Receive(s, nowMs, frame) => ReceiveIsFramed(g, s, nowMs, frame);
        case TicketVerified(id, claims, now) =>
          RefusedTicketIsQuiet(g, id, claims, now);
          QuietIsFramed(g, TicketStep(g, id, claims, now));
        case CoreAuthorized(id, allowed) =>
          RefusedCoreIsQuiet(g, id, allowed);
          QuietIsFramed(g, CoreStep(g, id, allowed));
        case IceServers(id, found) =>
          IceIsQuiet(g, id, found);
          QuietIsFramed(g, IceStep(g, id, found));
        case Gone(s) =>
          GoneFields(g, s);
          GoneIsFramed(g, Step(g, e), s);
        case PairTimer(key) => ExpireIsFramed(g, key);
        case _ =>
          SimpleIsQuiet(g, e);
          QuietIsFramed(g, Step(g, e));
      }
    }
  }
}
