/** Whom the Gateway talks to: a message is relayed only within the sender's own pairing. */
module GatewayRelay {
  import opened Common
  import opened Gateway
  import opened GatewayInvariant
  import opened GatewaySteps
  import opened GatewayRuns

  /** Everything sent since tells of a refusal or a loss. */
  ghost predicate OnlyNotices(before: seq<Delivery>, after: seq<Delivery>) {
    before <= after && forall i :: |before| <= i < |after| ==> after[i].message.Failure? || after[i].message.PeerLeft?
  }

  lemma OwnMessage(before: seq<Delivery>, d: Delivery)
    requires d.message.Failure? || d.message.PeerLeft?
    ensures OnlyNotices(before, before + [d]) && OnlyNotices(before, before)
  {
  }

  lemma SendOnlyNotifies(g: State, to: Socket, message: Outgoing)
    requires message.Failure? || message.PeerLeft?
    ensures OnlyNotices(g.sent, Send(g, to, message).sent)
  {
    OwnMessage(g.sent, Delivery(to, message));
  }

  lemma RejectOnlyNotifies(g: State, s: Socket, code: ErrorCode)
    ensures OnlyNotices(g.sent, RejectBindFailure(g, s, code).sent)
  {
    var g1 := g.(connections := Unmarked(g.connections, s));
    SendOnlyNotifies(g1, s, Failure(code));
    assert RejectBindFailure(g, s, code).sent == Send(g1, s, Failure(code)).sent;
  }

  lemma EvictOnlyNotifies(g: State, slot: Option<Socket>)
    ensures OnlyNotices(g.sent, Evict(g, slot).sent)
  {
    if slot.Some? {
      SendOnlyNotifies(g.(peers := g.peers - {slot.value}), slot.value, Failure(PairTimeout));
    }
  }

  lemma ExpireOnlyNotifies(g: State, key: string)
    requires key in g.pairs
    ensures OnlyNotices(g.sent, ExpireStep(g, key).sent)
  {
    var g0 := g.(pairs := g.pairs - {key});
    EvictOnlyNotifies(g0, g.pairs[key].core);
    EvictOnlyNotifies(Evict(g0, g.pairs[key].core), g.pairs[key].viewer);
  }

  lemma WithoutPeerOnlyNotifies(g: State, s: Socket)
    ensures OnlyNotices(g.sent, WithoutPeer(g, s).sent)
  {
  }

  lemma GoneOnlyNotifies(g: State, s: Socket)
    ensures OnlyNotices(g.sent, WithoutConnection(WithoutPeer(g, s), s).sent)
  {
    WithoutPeerOnlyNotifies(g, s);
    var g1 := WithoutPeer(g, s);
    assert WithoutConnection(g1, s).sent == g1.sent;
  }

  /** An ICE lookup either completes its couple, with the four messages in order, or at most refuses the binder. */
  lemma IceSends(g: State, id: nat, found: bool)
    requires id in g.completions
    ensures var e := IceServers(id, found); var c := g.completions[id];
            if Announces(g, e).Some? then IceStep(g, id, found).sent == g.sent + Handshake(CoupleOf(c), c.claims)
            else OnlyNotices(g.sent, IceStep(g, id, found).sent)
  {
    var g0 := g.(completions := g.completions - {id});
    RejectOnlyNotifies(g0, g.completions[id].binder, MessageInvalid);
    if Announces(g, IceServers(id, found)).Some? {
      AnnounceSends(g0, g.completions[id]);
    }
  }

  lemma EnterOnlyNotifies(g: State, p: Pairing, s: Socket, role: Role)
    ensures EnterPairing(g, p, s, role).sent == g.sent
  {
    EnterFields(g, p, s, role);
  }

  lemma TicketOnlyNotifies(g: State, id: nat, claims: Option<Claims>, now: int)
    requires id in g.authentications
    ensures OnlyNotices(g.sent, TicketStep(g, id, claims, now).sent)
  {
    var s, g0 := g.authentications[id].socket, g.(authentications := g.authentications - {id});
    if !ConnectionOpen(g, s) || claims.None? {
      RejectOnlyNotifies(g0, s, AuthFailed);
    } else {
      BindTicketOnlyNotifies(g0, s, claims.value, now);
    }
  }

  lemma BindTicketOnlyNotifies(g: State, s: Socket, claims: Claims, now: int)
    ensures OnlyNotices(g.sent, BindTicket(g, s, claims, now).sent)
  {
    var g1 := g.(consumedTickets := Prune(g.consumedTickets, now));
    var refusal := TicketRefusal(g1, claims, now);
    if refusal.Some? {
      RejectOnlyNotifies(g1, s, refusal.value);
    } else {
      var p := GetOrCreatePairing(g1, claims.sessionId, claims.viewerGeneration).value;
      EnterOnlyNotifies(g1.(consumedTickets := g1.consumedTickets[claims.jti := claims.expiresAt]),
                         p.(viewer := Some(s), claims := Some(claims)), s, Viewer);
    }
  }

  lemma CoreOnlyNotifies(g: State, id: nat, allowed: bool)
    requires id in g.authentications && g.authentications[id].CoreBind?
    ensures OnlyNotices(g.sent, CoreStep(g, id, allowed).sent)
  {
    var bind, g0 := g.authentications[id], g.(authentications := g.authentications - {id});
    RejectOnlyNotifies(g0, bind.socket, AuthFailed);
    RejectOnlyNotifies(g0, bind.socket, PairConflict);
    var p := GetOrCreatePairing(g0, bind.sessionId, bind.viewerGeneration);
    if p.Some? {
      EnterOnlyNotifies(g0, p.value.(core := Some(bind.socket)), bind.socket, Core);
    }
  }

  /** A relayed message goes to the opposite role of the sender's own pairing, in a direction allowed to it. */
  ghost predicate WithinPair(g: State, s: Socket, d: Delivery) {
    && s in g.peers && d.to in g.peers && d.to in g.open && d.message.Relayed?
    && g.peers[d.to] == BoundPeer(Opposite(g.peers[s].role), g.peers[s].key)
    && match d.message.message
       case Description(isOffer) => isOffer == g.peers[s].role.Core?
       case Ice => true
       case RestartIce => g.peers[s].role.Viewer?
       case SignalError => g.peers[s].role.Core?
       case _ => false
  }

  ghost predicate RelaysWithin(g: State, before: seq<Delivery>, after: seq<Delivery>, s: Socket, message: SignalMessage) {
    && |after| == |before| + 1 && before == after[..|before|]
    && after[|before|].message == Relayed(message) && WithinPair(g, s, after[|before|])
  }

  lemma RelayStaysWithin(g: State, s: Socket, message: SignalMessage)
    requires Agree(g.pairs, g.peers) && s in g.peers
    ensures var g' := RelayStep(g, s, message);
            OnlyNotices(g.sent, g'.sent) || RelaysWithin(g, g.sent, g'.sent, s, message)
  {
    assert PeerPlaced(g.pairs, g.peers, s) && PairPlaced(g.pairs, g.peers, g.peers[s].key);
    var r := RelayTarget(g, s, message);
    if r.Ok? {
      var role, p := g.peers[s].role, g.pairs[g.peers[s].key];
      assert SlotOf(p, Opposite(role)) == Some(r.value);
      assert SlotPlaced(g.peers, SlotOf(p, Opposite(role)), Opposite(role), g.peers[s].key);
    } else {
      RejectOnlyNotifies(g, s, r.error);
    }
  }

  lemma BeginOnlyNotifies(g: State, s: Socket, message: SignalMessage)
    ensures OnlyNotices(g.sent, BeginBind(g, s, message).sent)
  {
    RejectOnlyNotifies(g, s, AuthFailed);
  }

  lemma DispatchStaysWithin(g: State, s: Socket, frame: Frame)
    requires Agree(g.pairs, g.peers) && s in g.connections
    ensures var g' := DispatchStep(g, s, frame);
            OnlyNotices(g.sent, g'.sent) || (frame.Signal? && RelaysWithin(g, g.sent, g'.sent, s, frame.message))
  {
    if g.connections[s].bindInProgress {
      RejectOnlyNotifies(g, s, AuthFailed);
    } else if frame.Malformed? {
      RejectOnlyNotifies(g, s, MessageInvalid);
    } else if s in g.peers {
      RelayStaysWithin(g, s, frame.message);
    } else {
      BeginOnlyNotifies(g.(connections := g.connections[s := g.connections[s].(bindInProgress := true)]), s, frame.message);
    }
  }

  lemma CountedStaysWithin(g: State, s: Socket, nowMs: int, after: seq<Delivery>, message: SignalMessage)
    requires s in g.connections && RelaysWithin(CountStep(g, s, nowMs), g.sent, after, s, message)
    ensures RelaysWithin(g, g.sent, after, s, message)
  {
  }

  lemma ReceiveStaysWithin(g: State, s: Socket, nowMs: int, frame: Frame)
    requires Inv(g)
    ensures var g' := ReceiveStep(g, s, nowMs, frame);
            OnlyNotices(g.sent, g'.sent) || (frame.Signal? && RelaysWithin(g, g.sent, g'.sent, s, frame.message))
  {
    if s in g.connections {
      var g1 := CountStep(g, s, nowMs);
      if g1.connections[s].messagesInWindow > g.config.maxMessagesPerWindow {
        GoneOnlyNotifies(g1, s);
      } else {
        DispatchStaysWithin(g1, s, frame);
        var after := DispatchStep(g1, s, frame).sent;
        if !OnlyNotices(g.sent, after) {
          CountedStaysWithin(g, s, nowMs, after, frame.message);
        }
      }
    }
  }

  /**
   Everything a step sends: notices of refusal or loss; or the message just received, to the sender's
   own partner; or the four messages of the couple it completes.
   */
  lemma StepSends(g: State, e: Event)
    requires Inv(g) && Enabled(g, e)
    ensures if Announces(g, e).Some?
            then Step(g, e).sent == g.sent + Handshake(Announces(g, e).value, g.completions[e.id].claims)
            else OnlyNotices(g.sent, Step(g, e).sent)
                 || (e.Receive? && e.frame.Signal? && RelaysWithin(g, g.sent, Step(g, e).sent, e.socket, e.frame.message))
  {
    match e {
      case Accept(s, address, nowMs) => AcceptFields(g, s, address, nowMs);
      case Receive(s, nowMs, frame) => ReceiveStaysWithin(g, s, nowMs, frame);
      case TicketVerified(id, claims, now) => TicketOnlyNotifies(g, id, claims, now);
      case CoreAuthorized(id, allowed) => CoreOnlyNotifies(g, id, allowed);
      case IceServers(id, found) => IceSends(g, id, found);
      case BindTimeout(s) => SendOnlyNotifies(g, s, Failure(AuthFailed));
      case Gone(s) => GoneOnlyNotifies(g, s);
      case PairTimer(key) => ExpireOnlyNotifies(g, key);
      case _ =>
    }
  }

  ghost predicate NothingRelayed(before: seq<Delivery>, after: seq<Delivery>) {
    before <= after && forall i :: |before| <= i < |after| ==> !after[i].message.Relayed?
  }

  /** Nothing is relayed but the message just received, and that only to the sender's own partner. */
  lemma RelaysStayWithinPairs(g: State, e: Event)
    requires Inv(g) && Enabled(g, e)
    ensures NothingRelayed(g.sent, Step(g, e).sent)
            || (e.Receive? && e.frame.Signal? && RelaysWithin(g, g.sent, Step(g, e).sent, e.socket, e.frame.message))
  {
    StepSends(g, e);
  }

  // ------------------------------------------------------------ the agreement

  /** In every reachable state the peer table and the pairing slots are inverse to each other. */
  lemma PeersAndSlotsAreInverse(ws: seq<World>, es: seq<Event>, expiry: string -> int, n: nat, s: Socket, role: Role, key: string)
    requires IsRun(ws, es, expiry) && n <= |es|
    ensures var g := ws[n].g;
            (s in g.peers && g.peers[s] == BoundPeer(role, key)) <==> (key in g.pairs && SlotOf(g.pairs[key], role) == Some(s))
  {
    EveryRunKeepsInv(ws, es, expiry, n);
    assert PeerPlaced(ws[n].g.pairs, ws[n].g.peers, s) && PairPlaced(ws[n].g.pairs, ws[n].g.peers, key);
  }

  /** Two bound peers share a pairing exactly when their pairings are of the same Session generation. */
  lemma PairingsAreGenerations(ws: seq<World>, es: seq<Event>, expiry: string -> int, n: nat, s: Socket, t: Socket)
    requires IsRun(ws, es, expiry) && n <= |es| && s in ws[n].g.peers && t in ws[n].g.peers
    ensures var g := ws[n].g; var k, l := g.peers[s].key, g.peers[t].key;
            && k in g.pairs && l in g.pairs
            && (k == l <==> g.pairs[k].sessionId == g.pairs[l].sessionId && g.pairs[k].viewerGeneration == g.pairs[l].viewerGeneration)
  {
    EveryRunKeepsInv(ws, es, expiry, n);
    var g := ws[n].g;
    assert PeerPlaced(g.pairs, g.peers, s) && PeerPlaced(g.pairs, g.peers, t);
    assert PairPlaced(g.pairs, g.peers, g.peers[s].key) && PairPlaced(g.pairs, g.peers, g.peers[t].key);
  }

  /** A socket that binds, binds into the record of the very generation its ticket or request names. */
  lemma BindsIntoNamedGeneration(g: State, e: Event)
    requires Inv(g) && Enabled(g, e) && Binds(g, e).Some?
    ensures var b := Binds(g, e).value;
            && b.socket in Step(g, e).peers && b.record.key in Step(g, e).pairs
            && Step(g, e).peers[b.socket] == BoundPeer(b.role, b.record.key)
            && var p := Step(g, e).pairs[b.record.key];
            && SlotOf(p, b.role) == Some(b.socket)
            && (e.TicketVerified? ==> p.sessionId == e.claims.value.sessionId && p.viewerGeneration == e.claims.value.viewerGeneration)
            && (e.CoreAuthorized? ==> p.sessionId == g.authentications[e.id].sessionId && p.viewerGeneration == g.authentications[e.id].viewerGeneration)
  {
    var b := Binds(g, e).value;
    BindingEnters(g, e);
    BindingStep(g, e);
    EnterFields(Primed(g, e), Fill(b.record, b.socket, b.role, b.claims), b.socket, b.role);
    if e.TicketVerified? {
      GetOrCreateIsJoinable(g, e.claims.value.sessionId, e.claims.value.viewerGeneration);
    } else {
      GetOrCreateIsJoinable(g, g.authentications[e.id].sessionId, g.authentications[e.id].viewerGeneration);
    }
  }

  /** In every reachable state the address counts are those of the live connections, and all caps hold. */
  lemma CapacitiesHold(ws: seq<World>, es: seq<Event>, expiry: string -> int, n: nat, address: string)
    requires IsRun(ws, es, expiry) && n <= |es|
    ensures var g := ws[n].g;
            && |From(g.connections, address)| == (if address in g.connectionsByAddress then g.connectionsByAddress[address] else 0)
            && |From(g.connections, address)| <= g.config.maxConnectionsPerIp && |g.connections| <= g.config.maxConnections
            && |g.pairs| <= g.config.maxPendingPairs && |g.consumedTickets| <= g.config.maxConsumedTickets && g.peers.Keys <= g.connections.Keys
  {
    EveryRunKeepsInv(ws, es, expiry, n);
    var g := ws[n].g;
    assert AddressCounted(g.connections, g.connectionsByAddress, g.config.maxConnectionsPerIp, address);
  }

  // ----------------------------------------------------------- who is told what

  /** The partner of a lost peer, if it is bound and open, hears which role left; nobody else hears anything. */
  lemma PartnerHearsOfLoss(g: State, s: Socket, partner: Socket)
    requires Inv(g) && s in g.peers && partner in g.peers
    requires g.peers[partner] == BoundPeer(Opposite(g.peers[s].role), g.peers[s].key)
    ensures Step(g, Gone(s)).sent == g.sent + if partner in g.open then [Delivery(partner, PeerLeft(g.peers[s].role))] else []
    ensures partner in Step(g, Gone(s)).peers
  {
    assert PeerPlaced(g.pairs, g.peers, s) && PeerPlaced(g.pairs, g.peers, partner);
    WithoutPeerTells(g, s, partner);
    GoneFields(g, s);
    var g1 := WithoutPeer(g, s);
    assert WithoutConnection(g1, s).sent == g1.sent;
    assert partner != s;
  }

  lemma WithoutPeerTells(g: State, s: Socket, partner: Socket)
    requires s in g.peers && g.peers[s].key in g.pairs
    requires SlotOf(g.pairs[g.peers[s].key], Opposite(g.peers[s].role)) == Some(partner)
    ensures WithoutPeer(g, s).sent == g.sent + if partner in g.open then [Delivery(partner, PeerLeft(g.peers[s].role))] else []
  {
    var p := Leave(g.pairs[g.peers[s].key], g.peers[s].role, s);
    assert SlotOf(p, Opposite(g.peers[s].role)) == Some(partner);
  }

  lemma EvictTells(g: State, slot: Option<Socket>)
    ensures Evict(g, slot).sent == g.sent + if slot.Some? && slot.value in g.open then [Delivery(slot.value, Failure(PairTimeout))] else []
  {
  }

  /** Whoever is bound when its pairing expires is told so, closed, and no longer a peer; others are untouched. */
  lemma ExpiryRejectsItsPeers(g: State, key: string, s: Socket)
    requires Inv(g) && key in g.pairs && s in g.peers
    ensures var g' := ExpireStep(g, key);
            if g.peers[s].key != key then s in g'.peers && (s in g'.open <==> s in g.open)
            else s !in g'.peers && s !in g'.open && (s in g.open ==> Delivery(s, Failure(PairTimeout)) in g'.sent)
  {
    ExpireFields(g, key);
    DeletePairAgrees(g.pairs, g.peers, key);
    if g.peers[s].key == key && s in g.open {
      ExpiryTells(g, key, s);
    }
  }

  lemma ExpiryTells(g: State, key: string, s: Socket)
    requires key in g.pairs && s in Members(g.pairs[key]) && s in g.open
    ensures Delivery(s, Failure(PairTimeout)) in ExpireStep(g, key).sent
  {
    var p, g0 := g.pairs[key], g.(pairs := g.pairs - {key});
    var g1 := Evict(g0, p.core);
    EvictTells(g0, p.core);
    EvictFields(g0, p.core);
    EvictTells(g1, p.viewer);
    if p.core == Some(s) {
      assert Delivery(s, Failure(PairTimeout)) in g1.sent;
    }
  }
}
