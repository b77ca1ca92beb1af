/**
 The signaling Gateway: it authenticates one Core and one Viewer socket per Session generation,
 pairs them, relays between them, and expires what stays incomplete. Every function below is the
 effect of one stretch of code between two awaits.
 */
module Gateway {
  import opened Common
  import opened MessageRate
  import PairingKey

  type Socket = nat

  datatype Role = Core | Viewer

  datatype Claims = Claims(
    sessionId: string, viewerGeneration: nat, gatewayId: string, issuedAt: int, expiresAt: int, jti: string)

  datatype Configuration = Configuration(
    gatewayId: string, maxPendingPairs: nat, maxConnections: nat, maxConnectionsPerIp: nat,
    messageRateWindowMs: nat, maxMessagesPerWindow: nat, maxConsumedTickets: nat)

  datatype BoundPeer = BoundPeer(role: Role, key: string)

  /** A pairing record. `id` is its identity: a later record under the same key has another one. */
  datatype Pairing = Pairing(
    id: nat, key: string, sessionId: string, viewerGeneration: nat,
    core: Option<Socket>, viewer: Option<Socket>, claims: Option<Claims>, timerArmed: bool)

  /** A bind suspended in ticket verification or Core authorization. */
  datatype Authentication =
    | ViewerBind(socket: Socket)
    | CoreBind(socket: Socket, sessionId: string, viewerGeneration: nat)

  /** A pair completion suspended in its first or second ICE server lookup. */
  datatype Completion = Completion(
    pairingId: nat, key: string, core: Socket, viewer: Socket, claims: Claims, binder: Socket, first: bool)

  datatype ErrorCode =
    | AuthFailed | TicketExpired | TicketReplayed | PairConflict | NotPaired | PairTimeout | MessageInvalid

  datatype SignalMessage =
    | BindViewer(ticket: string)
    | BindCore(sessionId: string, viewerGeneration: nat, gatewayId: string)
    | Description(isOffer: bool)
    | Ice | RestartIce | SignalError | OtherSignal

  datatype Outgoing =
    | Ready(role: Role, claims: Claims) | PeerReady | PeerLeft(role: Role) | Failure(code: ErrorCode)
    | Relayed(message: SignalMessage)

  datatype Delivery = Delivery(to: Socket, message: Outgoing)

  /** `open` holds the sockets whose readyState is OPEN; `seen` the sockets ever offered. */
  datatype State = State(
    config: Configuration,
    pairs: map<string, Pairing>,
    peers: map<Socket, BoundPeer>,
    connections: map<Socket, ConnectionRecord>,
    connectionsByAddress: map<string, nat>,
    consumedTickets: map<string, int>,
    authentications: map<nat, Authentication>,
    completions: map<nat, Completion>,
    nextId: nat,
    open: set<Socket>,
    seen: set<Socket>,
    sent: seq<Delivery>)

  function Fresh(config: Configuration): State {
    State(config, map[], map[], map[], map[], map[], map[], map[], 0, {}, {}, [])
  }

  // ------------------------------------------------------------- primitives

  /** A closing or closed socket gets nothing. */
  function Send(g: State, to: Socket, message: Outgoing): State {
    if to in g.open then g.(sent := g.sent + [Delivery(to, message)]) else g
  }

  function Closing(g: State, socket: Socket): State {
    g.(open := g.open - {socket})
  }

  function RejectSocket(g: State, socket: Socket, code: ErrorCode): State {
    Closing(Send(g, socket, Failure(code)), socket)
  }

  function RejectBindFailure(g: State, socket: Socket, code: ErrorCode): State {
    var g1 := if socket in g.connections
              then g.(connections := g.connections[socket := g.connections[socket].(bindInProgress := false)]) else g;
    RejectSocket(g1, socket, code)
  }

  function SlotOf(p: Pairing, role: Role): Option<Socket> {
    if role.Core? then p.core else p.viewer
  }

  function Opposite(role: Role): Role {
    if role.Core? then Viewer else Core
  }

  function Vacate(p: Pairing, role: Role): Pairing {
    if role.Core? then p.(core := None) else p.(viewer := None, claims := None)
  }

  /** The pairing after `socket` left it; its timer is armed again. */
  function Leave(p: Pairing, role: Role, socket: Socket): Pairing {
    (if SlotOf(p, role) == Some(socket) then Vacate(p, role) else p).(timerArmed := true)
  }

  function Left(pairs: map<string, Pairing>, peers: map<Socket, BoundPeer>, socket: Socket): map<string, Pairing> {
    if socket !in peers || peers[socket].key !in pairs then pairs
    else pairs[peers[socket].key := Leave(pairs[peers[socket].key], peers[socket].role, socket)]
  }

  function Notify(g: State, to: Option<Socket>, message: Outgoing): State {
    if to.Some? then Send(g, to.value, message) else g
  }

  /** The partner of a lost peer, if the pairing has one, hears of it. */
  function WithoutPeer(g: State, socket: Socket): State {
    if socket !in g.peers then g
    else
      var peer := g.peers[socket];
      var g1 := g.(peers := g.peers - {socket}, pairs := Left(g.pairs, g.peers, socket));
      if peer.key !in g.pairs then g1
      else Notify(g1, SlotOf(g1.pairs[peer.key], Opposite(peer.role)), PeerLeft(peer.role))
  }

  function WithoutConnection(g: State, socket: Socket): State {
    if socket !in g.connections then g
    else
      var address := g.connections[socket].address;
      var count := if address in g.connectionsByAddress then g.connectionsByAddress[address] else 0;
      g.(connections := g.connections - {socket},
         connectionsByAddress := if count <= 1 then g.connectionsByAddress - {address} else g.connectionsByAddress[address := count - 1])
  }

  function Prune(tickets: map<string, int>, now: int): map<string, int> {
    map jti | jti in tickets && tickets[jti] > now :: tickets[jti]
  }

  /** The pairing a bind would join, or None when a new one would exceed the capacity. */
  function GetOrCreatePairing(g: State, sessionId: string, viewerGeneration: nat): Option<Pairing> {
    var key := PairingKey.Key(sessionId, viewerGeneration);
    if key in g.pairs then Some(g.pairs[key])
    else if |g.pairs| >= g.config.maxPendingPairs then None
    else Some(Pairing(g.nextId, key, sessionId, viewerGeneration, None, None, None, true))
  }

  /** Enters a socket into its pairing and, if that is now full, starts completing it. */
  function EnterPairing(g: State, p: Pairing, socket: Socket, role: Role): State {
    var full := p.core.Some? && p.viewer.Some? && p.claims.Some?;
    var p' := if full then p.(timerArmed := false) else p;
    var g1 := g.(pairs := g.pairs[p.key := p'], peers := g.peers[socket := BoundPeer(role, p.key)], nextId := g.nextId + 2);
    if full
    then g1.(completions := g.completions[g.nextId + 1 :=
               Completion(p.id, p.key, p.core.value, p.viewer.value, p.claims.value, socket, true)])
    else g1
  }

  predicate ConnectionOpen(g: State, socket: Socket) {
    socket in g.connections && socket in g.open
  }

  predicate PairCurrent(g: State, c: Completion) {
    && c.key in g.pairs && g.pairs[c.key].id == c.pairingId
    && g.pairs[c.key].core == Some(c.core) && g.pairs[c.key].viewer == Some(c.viewer)
    && g.pairs[c.key].claims == Some(c.claims)
    && c.core in g.peers && g.peers[c.core].key == c.key
    && c.viewer in g.peers && g.peers[c.viewer].key == c.key
    && c.core in g.open && c.viewer in g.open
  }

  // -------------------------------------------------------------- the steps

  datatype Frame = Malformed | Signal(message: SignalMessage)

  datatype Event =
    | Accept(socket: Socket, address: string, nowMs: int)
    | Receive(socket: Socket, nowMs: int, frame: Frame)
    | TicketVerified(id: nat, claims: Option<Claims>, now: int)
    | CoreAuthorized(id: nat, allowed: bool)
    | IceServers(id: nat, found: bool)
    | BindFinished(socket: Socket)
    | BindTimeout(socket: Socket)
    | NotOpen(socket: Socket)
    | Gone(socket: Socket)
    | PairTimer(key: string)
    | Metrics(now: int)

  function AcceptStep(g: State, socket: Socket, address: string, nowMs: int): State {
    var g0 := g.(seen := g.seen + {socket});
    var fromAddress := if address in g.connectionsByAddress then g.connectionsByAddress[address] else 0;
    if |g.connections| >= g.config.maxConnections || fromAddress >= g.config.maxConnectionsPerIp then g0
    else g0.(open := g.open + {socket},
             connections := g.connections[socket := ConnectionRecord(address, nowMs, 0, false)],
             connectionsByAddress := g.connectionsByAddress[address := fromAddress + 1])
  }

  /** The opposite role's socket when the message may pass to it, or the reason why not. */
  function RelayTarget(g: State, socket: Socket, message: SignalMessage): Result<Socket, ErrorCode>
    requires socket in g.peers
  {
    var peer := g.peers[socket];
    if peer.key !in g.pairs then Err(NotPaired)
    else
      var destination := SlotOf(g.pairs[peer.key], Opposite(peer.role));
      if destination.None? || destination.value !in g.open then Err(NotPaired)
      else
        var passes := match message
          case Description(isOffer) => isOffer == peer.role.Core?
          case Ice => true
          case RestartIce => peer.role.Viewer?
          case SignalError => peer.role.Core?
          case _ => false;
        if passes then Ok(destination.value) else Err(MessageInvalid)
  }

  function RelayStep(g: State, socket: Socket, message: SignalMessage): State
    requires socket in g.peers
  {
    var r := RelayTarget(g, socket, message);
    if r.Ok? then Send(g, r.value, Relayed(message)) else RejectBindFailure(g, socket, r.error)
  }

  /** The first message of a connection; its record is already marked as binding. */
  function BeginBind(g: State, socket: Socket, message: SignalMessage): State {
    match message
    case BindViewer(_) =>
      g.(authentications := g.authentications[g.nextId := ViewerBind(socket)], nextId := g.nextId + 1)
    case BindCore(sessionId, viewerGeneration, gatewayId) =>
      if gatewayId != g.config.gatewayId then RejectBindFailure(g, socket, AuthFailed)
      else g.(authentications := g.authentications[g.nextId := CoreBind(socket, sessionId, viewerGeneration)], nextId := g.nextId + 1)
    case _ => RejectBindFailure(g, socket, AuthFailed)
  }

  /** A message within the rate. */
  function DispatchStep(g: State, socket: Socket, frame: Frame): State
    requires socket in g.connections
  {
    if g.connections[socket].bindInProgress then RejectBindFailure(g, socket, AuthFailed)
    else if frame.Malformed? then RejectBindFailure(g, socket, MessageInvalid)
    else if socket in g.peers then RelayStep(g, socket, frame.message)
    else BeginBind(g.(connections := g.connections[socket := g.connections[socket].(bindInProgress := true)]), socket, frame.message)
  }

  function CountStep(g: State, socket: Socket, nowMs: int): State
    requires socket in g.connections
  {
    g.(connections := g.connections[socket := Count(g.connections[socket], nowMs, g.config.messageRateWindowMs)])
  }

  function ReceiveStep(g: State, socket: Socket, nowMs: int, frame: Frame): State {
    if socket !in g.connections then g
    else
      var g1 := CountStep(g, socket, nowMs);
      if g1.connections[socket].messagesInWindow > g.config.maxMessagesPerWindow
      then Closing(WithoutConnection(WithoutPeer(g1, socket), socket), socket)
      else DispatchStep(g1, socket, frame)
  }

  /** Why a verified ticket cannot be bound now, if it cannot. */
  function TicketRefusal(g: State, claims: Claims, now: int): Option<ErrorCode> {
    if claims.gatewayId != g.config.gatewayId then Some(AuthFailed)
    else if claims.issuedAt > now + 60 || claims.expiresAt <= now then Some(TicketExpired)
    else if claims.jti in g.consumedTickets then Some(TicketReplayed)
    else if |g.consumedTickets| >= g.config.maxConsumedTickets then Some(PairConflict)
    else
      var p := GetOrCreatePairing(g, claims.sessionId, claims.viewerGeneration);
      if p.None? || p.value.viewer.Some? then Some(PairConflict) else None
  }

  /** The rest of a Viewer's bind whose ticket is authentic. */
  function BindTicket(g: State, socket: Socket, claims: Claims, now: int): State {
    var g1 := g.(consumedTickets := Prune(g.consumedTickets, now));
    var refusal := TicketRefusal(g1, claims, now);
    if refusal.Some? then RejectBindFailure(g1, socket, refusal.value)
    else
      var p := GetOrCreatePairing(g1, claims.sessionId, claims.viewerGeneration).value;
      EnterPairing(g1.(consumedTickets := g1.consumedTickets[claims.jti := claims.expiresAt]),
                   p.(viewer := Some(socket), claims := Some(claims)), socket, Viewer)
  }

  function TicketStep(g: State, id: nat, claims: Option<Claims>, now: int): State
    requires id in g.authentications
  {
    var socket := g.authentications[id].socket;
    var g0 := g.(authentications := g.authentications - {id});
    if !ConnectionOpen(g, socket) || claims.None? then RejectBindFailure(g0, socket, AuthFailed)
    else BindTicket(g0, socket, claims.value, now)
  }

  function CoreStep(g: State, id: nat, allowed: bool): State
    requires id in g.authentications && g.authentications[id].CoreBind?
  {
    var bind := g.authentications[id];
    var g0 := g.(authentications := g.authentications - {id});
    if !ConnectionOpen(g, bind.socket) || !allowed then RejectBindFailure(g0, bind.socket, AuthFailed)
    else
      var p := GetOrCreatePairing(g0, bind.sessionId, bind.viewerGeneration);
      if p.None? || p.value.core.Some? then RejectBindFailure(g0, bind.socket, PairConflict)
      else EnterPairing(g0, p.value.(core := Some(bind.socket)), bind.socket, Core)
  }

  /** The messages of a completed pair: both sides are ready before either learns of the other. */
  function Announce(g: State, c: Completion): State {
    Send(Send(Send(Send(g, c.core, Ready(Core, c.claims)), c.viewer, Ready(Viewer, c.claims)), c.core, PeerReady), c.viewer, PeerReady)
  }

  function IceStep(g: State, id: nat, found: bool): State
    requires id in g.completions
  {
    var c := g.completions[id];
    var g0 := g.(completions := g.completions - {id});
    if !found then RejectBindFailure(g0, c.binder, MessageInvalid)
    else if !PairCurrent(g, c) then g0
    else if c.first then g.(completions := g.completions[id := c.(first := false)])
    else Announce(g0, c)
  }

  /** Tells whoever holds a slot that the pairing timed out. */
  function Evict(g: State, slot: Option<Socket>): State {
    if slot.None? then g else RejectSocket(g.(peers := g.peers - {slot.value}), slot.value, PairTimeout)
  }

  function ExpireStep(g: State, key: string): State
    requires key in g.pairs
  {
    Evict(Evict(g.(pairs := g.pairs - {key}), g.pairs[key].core), g.pairs[key].viewer)
  }

  /** A bind is over once nothing it started is still suspended. */
  function FinishStep(g: State, socket: Socket): State {
    if !ConnectionOpen(g, socket) then g
    else g.(connections := g.connections[socket := g.connections[socket].(bindInProgress := false)])
  }

  predicate Enabled(g: State, e: Event) {
    match e
    case Accept(socket, _, _) => socket !in g.seen
    case TicketVerified(id, _, _) => id in g.authentications && g.authentications[id].ViewerBind?
    case CoreAuthorized(id, _) => id in g.authentications && g.authentications[id].CoreBind?
    case IceServers(id, _) => id in g.completions
    case BindFinished(socket) => socket in g.peers && forall id :: id in g.completions ==> g.completions[id].binder != socket
    case PairTimer(key) => key in g.pairs && g.pairs[key].timerArmed
    case _ => true
  }

  function Step(g: State, e: Event): State
    requires Enabled(g, e)
  {
    match e
    case Accept(socket, address, nowMs) => AcceptStep(g, socket, address, nowMs)
    case Receive(socket, nowMs, frame) => ReceiveStep(g, socket, nowMs, frame)
    case TicketVerified(id, claims, now) => TicketStep(g, id, claims, now)
    case CoreAuthorized(id, allowed) => CoreStep(g, id, allowed)
    case IceServers(id, found) => IceStep(g, id, found)
    case BindFinished(socket) => FinishStep(g, socket)
    case BindTimeout(socket) => RejectSocket(g, socket, AuthFailed)
    case NotOpen(socket) => Closing(g, socket)
    case Gone(socket) => WithoutConnection(WithoutPeer(g, socket), socket)
    case PairTimer(key) => ExpireStep(g, key)
    case Metrics(now) => g.(consumedTickets := Prune(g.consumedTickets, now))
  }

  // ------------------------------------------------------------------ class

  class SignalingGateway {
    const config: Configuration
    var pairs: map<string, Pairing>
    var peers: map<Socket, BoundPeer>
    var connections: map<Socket, ConnectionRecord>
    var connectionsByAddress: map<string, nat>
    var consumedTickets: map<string, int>
    var authentications: map<nat, Authentication>
    var completions: map<nat, Completion>
    var nextId: nat
    var open: set<Socket>
    var seen: set<Socket>
    var sent: seq<Delivery>

    function View(): State
      reads this
    {
      State(config, pairs, peers, connections, connectionsByAddress, consumedTickets, authentications, completions, nextId, open, seen, sent)
    }

    constructor (config: Configuration)
      ensures View() == Fresh(config)
    {
      this.config := config;
      pairs, peers, connections, connectionsByAddress := map[], map[], map[], map[];
      consumedTickets, authentications, completions, nextId := map[], map[], map[], 0;
      open, seen, sent := {}, {}, [];
    }

    method AcceptSocket(socket: Socket, address: string, nowMs: int)
      requires socket !in seen
      modifies this
      ensures View() == Step(old(View()), Accept(socket, address, nowMs))
    {
      seen := seen + {socket};
      if |connections| >= config.maxConnections {
        return;
      }
      var addressConnections := if address in connectionsByAddress then connectionsByAddress[address] else 0;
      if addressConnections >= config.maxConnectionsPerIp {
        return;
      }
      open := open + {socket};
      connections := connections[socket := ConnectionRecord(address, nowMs, 0, false)];
      connectionsByAddress := connectionsByAddress[address := addressConnections + 1];
    }

    method OnMessage(socket: Socket, nowMs: int, frame: Frame)
      modifies this
      ensures View() == Step(old(View()), Receive(socket, nowMs, frame))
    {
      var accepted := ConsumeMessage(socket, nowMs);
      if accepted {
        Dispatch(socket, frame);
      }
    }

    method Dispatch(socket: Socket, frame: Frame)
      requires socket in connections
      modifies this
      ensures View() == DispatchStep(old(View()), socket, frame)
    {
      if connections[socket].bindInProgress {
        RejectBind(socket, AuthFailed);
      } else if frame.Malformed? {
        RejectBind(socket, MessageInvalid);
      } else if socket in peers {
        Relay(socket, frame.message);
      } else {
        connections := connections[socket := connections[socket].(bindInProgress := true)];
        StartBind(socket, frame.message);
      }
    }

    /** Counts the message; a connection over its limit is dropped at once. */
    method ConsumeMessage(socket: Socket, nowMs: int) returns (accepted: bool)
      modifies this
      ensures accepted ==> socket in connections && socket in old(connections) && View() == CountStep(old(View()), socket, nowMs)
      ensures accepted == (
                && socket in old(connections)
                && CountStep(old(View()), socket, nowMs).connections[socket].messagesInWindow <= config.maxMessagesPerWindow)
      ensures !accepted ==> forall frame :: View() == ReceiveStep(old(View()), socket, nowMs, frame)
    {
      if socket !in connections {
        return false;
      }
      var record := connections[socket];
      if nowMs - record.windowStartedAt >= config.messageRateWindowMs {
        record := record.(windowStartedAt := nowMs, messagesInWindow := 0);
      }
      record := record.(messagesInWindow := record.messagesInWindow + 1);
      connections := connections[socket := record];
      if record.messagesInWindow <= config.maxMessagesPerWindow {
        return true;
      }
      RemovePeer(socket);
      RemoveConnection(socket);
      open := open - {socket};
      return false;
    }

    method SendTo(to: Socket, message: Outgoing)
      modifies this`sent
      ensures View() == Send(old(View()), to, message)
    {
      if to in open {
        sent := sent + [Delivery(to, message)];
      }
    }

    method Reject(socket: Socket, code: ErrorCode)
      modifies this`sent, this`open
      ensures View() == RejectSocket(old(View()), socket, code)
    {
      SendTo(socket, Failure(code));
      open := open - {socket};
    }

    method RejectBind(socket: Socket, code: ErrorCode)
      modifies this`sent, this`open, this`connections
      ensures View() == RejectBindFailure(old(View()), socket, code)
    {
      if socket in connections {
        connections := connections[socket := connections[socket].(bindInProgress := false)];
      }
      Reject(socket, code);
    }

    method StartBind(socket: Socket, message: SignalMessage)
      modifies this
      ensures View() == BeginBind(old(View()), socket, message)
    {
      match message {
        case BindViewer(_) =>
          authentications := authentications[nextId := ViewerBind(socket)];
          nextId := nextId + 1;
        case BindCore(sessionId, viewerGeneration, gatewayId) =>
          if gatewayId != config.gatewayId {
            RejectBind(socket, AuthFailed);
          } else {
            authentications := authentications[nextId := CoreBind(socket, sessionId, viewerGeneration)];
            nextId := nextId + 1;
          }
        case _ => RejectBind(socket, AuthFailed);
      }
    }

    /** The rest of `#bindViewer` after the ticket verifier answered. */
    method ResumeViewerBind(id: nat, claims: Option<Claims>, now: int)
      requires Enabled(View(), TicketVerified(id, claims, now))
      modifies this
      ensures View() == Step(old(View()), TicketVerified(id, claims, now))
    {
      var socket := authentications[id].socket;
      authentications := authentications - {id};
      if claims.None? || !ConnectionOpen(View(), socket) {
        RejectBind(socket, AuthFailed);
        return;
      }
      BindVerified(socket, claims.value, now);
    }

    method BindVerified(socket: Socket, claims: Claims, now: int)
      modifies this
      ensures View() == BindTicket(old(View()), socket, claims, now)
    {
      PruneConsumedTickets(now);
      ghost var pruned := View();
      assert pruned == old(View()).(consumedTickets := Prune(old(View()).consumedTickets, now));
      var refusal := TicketRefusal(View(), claims, now);
      if refusal.Some? {
        RejectBind(socket, refusal.value);
        return;
      }
      var pairing := GetOrCreatePairing(View(), claims.sessionId, claims.viewerGeneration).value;
      consumedTickets := consumedTickets[claims.jti := claims.expiresAt];
      pairing := pairing.(viewer := Some(socket), claims := Some(claims));
      assert View() == pruned.(consumedTickets := pruned.consumedTickets[claims.jti := claims.expiresAt]);
      EnterAndComplete(pairing, socket, Viewer);
    }

    /** The rest of `#bindCore` after the authorizer answered. */
    method ResumeCoreBind(id: nat, allowed: bool)
      requires Enabled(View(), CoreAuthorized(id, allowed))
      modifies this
      ensures View() == Step(old(View()), CoreAuthorized(id, allowed))
    {
      var bind := authentications[id];
      authentications := authentications - {id};
      if !ConnectionOpen(View(), bind.socket) || !allowed {
        RejectBind(bind.socket, AuthFailed);
        return;
      }
      var pairing := GetOrCreatePairing(View(), bind.sessionId, bind.viewerGeneration);
      if pairing.None? || pairing.value.core.Some? {
        RejectBind(bind.socket, PairConflict);
        return;
      }
      EnterAndComplete(pairing.value.(core := Some(bind.socket)), bind.socket, Core);
    }

    method EnterAndComplete(pairing: Pairing, socket: Socket, role: Role)
      modifies this`pairs, this`peers, this`nextId, this`completions
      ensures View() == EnterPairing(old(View()), pairing, socket, role)
    {
      var p := pairing;
      peers := peers[socket := BoundPeer(role, p.key)];
      if p.core.Some? && p.viewer.Some? && p.claims.Some? {
        p := p.(timerArmed := false);
        completions := completions[nextId + 1 := Completion(p.id, p.key, p.core.value, p.viewer.value, p.claims.value, socket, true)];
      }
      pairs := pairs[p.key := p];
      nextId := nextId + 2;
    }

    /** The rest of `#completePair` after an ICE server lookup. */
    method ResumeCompletion(id: nat, found: bool)
      requires id in completions
      modifies this
      ensures View() == Step(old(View()), IceServers(id, found))
    {
      var c := completions[id];
      if !found {
        completions := completions - {id};
        RejectBind(c.binder, MessageInvalid);
      } else if !PairCurrent(View(), c) {
        completions := completions - {id};
      } else if c.first {
        completions := completions[id := c.(first := false)];
      } else {
        completions := completions - {id};
        SendTo(c.core, Ready(Core, c.claims));
        SendTo(c.viewer, Ready(Viewer, c.claims));
        SendTo(c.core, PeerReady);
        SendTo(c.viewer, PeerReady);
      }
    }

    method FinishBind(socket: Socket)
      requires Enabled(View(), BindFinished(socket))
      modifies this
      ensures View() == Step(old(View()), BindFinished(socket))
    {
      if socket in connections && socket in open {
        connections := connections[socket := connections[socket].(bindInProgress := false)];
      }
    }

    method Relay(socket: Socket, message: SignalMessage)
      requires socket in peers
      modifies this`sent, this`open, this`connections
      ensures View() == RelayStep(old(View()), socket, message)
    {
      var target := RelayTarget(View(), socket, message);
      if target.Ok? {
        SendTo(target.value, Relayed(message));
      } else {
        RejectBind(socket, target.error);
      }
    }

    method RemovePeer(socket: Socket)
      modifies this`peers, this`pairs, this`sent
      ensures View() == WithoutPeer(old(View()), socket)
    {
      if socket !in peers {
        return;
      }
      var peer := peers[socket];
      peers := peers - {socket};
      if peer.key !in pairs {
        return;
      }
      var pairing := pairs[peer.key];
      if peer.role == Core && pairing.core == Some(socket) {
        pairing := pairing.(core := None);
      } else if peer.role == Viewer && pairing.viewer == Some(socket) {
        pairing := pairing.(viewer := None, claims := None);
      }
      pairing := pairing.(timerArmed := true);
      pairs := pairs[peer.key := pairing];
      var destination := if peer.role == Core then pairing.viewer else pairing.core;
      if destination.Some? {
        SendTo(destination.value, PeerLeft(peer.role));
      }
    }

    method RemoveConnection(socket: Socket)
      modifies this`connections, this`connectionsByAddress
      ensures View() == WithoutConnection(old(View()), socket)
    {
      if socket !in connections {
        return;
      }
      var address := connections[socket].address;
      connections := connections - {socket};
      var count := if address in connectionsByAddress then connectionsByAddress[address] else 0;
      if count <= 1 {
        connectionsByAddress := connectionsByAddress - {address};
      } else {
        connectionsByAddress := connectionsByAddress[address := count - 1];
      }
    }

    /** The listener of a closed or failed socket. */
    method OnGone(socket: Socket)
      modifies this
      ensures View() == Step(old(View()), Gone(socket))
    {
      RemovePeer(socket);
      RemoveConnection(socket);
    }

    method ExpirePair(key: string)
      requires key in pairs
      modifies this
      ensures View() == ExpireStep(old(View()), key)
    {
      var pairing := pairs[key];
      pairs := pairs - {key};
      if pairing.core.Some? {
        peers := peers - {pairing.core.value};
        Reject(pairing.core.value, PairTimeout);
      }
      if pairing.viewer.Some? {
        peers := peers - {pairing.viewer.value};
        Reject(pairing.viewer.value, PairTimeout);
      }
    }

    method PruneConsumedTickets(now: int)
      modifies this`consumedTickets
      ensures View() == Step(old(View()), Metrics(now))
    {
      consumedTickets := map jti | jti in consumedTickets && consumedTickets[jti] > now :: consumedTickets[jti];
    }
  }
}
