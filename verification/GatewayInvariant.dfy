/** What every step of the Gateway keeps, with any number of binds and completions suspended. */
module GatewayInvariant {
  import opened Common
  import opened Gateway
  import opened MessageRate
  import PairingKey

  // -------------------------------------------------- peers and pairing slots

  /** A bound peer holds the slot of its role in its own pairing. */
  ghost predicate PeerPlaced(pairs: map<string, Pairing>, peers: map<Socket, BoundPeer>, s: Socket) {
    s in peers ==> peers[s].key in pairs && SlotOf(pairs[peers[s].key], peers[s].role) == Some(s)
  }

  ghost predicate SlotPlaced(peers: map<Socket, BoundPeer>, slot: Option<Socket>, role: Role, key: string) {
    slot.Some? ==> slot.value in peers && peers[slot.value] == BoundPeer(role, key)
  }

  /**
   A pairing is filed under its own generation's key, its slots hold bound peers, it has claims
   exactly with a Viewer, and its timer is armed exactly while a role is missing.
   */
  ghost predicate PairPlaced(pairs: map<string, Pairing>, peers: map<Socket, BoundPeer>, key: string) {
    key in pairs ==>
      var p := pairs[key];
      && p.key == key == PairingKey.Key(p.sessionId, p.viewerGeneration)
      && SlotPlaced(peers, p.core, Core, key) && SlotPlaced(peers, p.viewer, Viewer, key)
      && (p.claims.Some? <==> p.viewer.Some?)
      && (p.claims.Some? ==> p.claims.value.sessionId == p.sessionId && p.claims.value.viewerGeneration == p.viewerGeneration)
      && (p.timerArmed <==> p.core.None? || p.viewer.None?)
  }

  ghost predicate Agree(pairs: map<string, Pairing>, peers: map<Socket, BoundPeer>) {
    && (forall s {:trigger PeerPlaced(pairs, peers, s)} :: PeerPlaced(pairs, peers, s))
    && (forall key {:trigger PairPlaced(pairs, peers, key)} :: PairPlaced(pairs, peers, key))
  }

  /** The pairing after `role` left it. */
  function Emptied(p: Pairing, role: Role): Pairing {
    Vacate(p, role).(timerArmed := true)
  }

  lemma VacatePlacesPeer(pairs: map<string, Pairing>, peers: map<Socket, BoundPeer>, s: Socket, t: Socket)
    requires s in peers && PeerPlaced(pairs, peers, s) && PeerPlaced(pairs, peers, t)
    ensures PeerPlaced(pairs[peers[s].key := Emptied(pairs[peers[s].key], peers[s].role)], peers - {s}, t)
  {
  }

  lemma VacatePlacesPair(pairs: map<string, Pairing>, peers: map<Socket, BoundPeer>, s: Socket, k: string)
    requires s in peers && PeerPlaced(pairs, peers, s) && PairPlaced(pairs, peers, k)
    ensures PairPlaced(pairs[peers[s].key := Emptied(pairs[peers[s].key], peers[s].role)], peers - {s}, k)
  {
    if k in pairs && k == peers[s].key {
      assert Emptied(pairs[k], peers[s].role).key == k;
    }
  }

  lemma VacateAgrees(pairs: map<string, Pairing>, peers: map<Socket, BoundPeer>, s: Socket)
    requires Agree(pairs, peers) && s in peers
    ensures peers[s].key in pairs && Agree(pairs[peers[s].key := Emptied(pairs[peers[s].key], peers[s].role)], peers - {s})
  {
    assert PeerPlaced(pairs, peers, s);
    var pairs' := pairs[peers[s].key := Emptied(pairs[peers[s].key], peers[s].role)];
    forall t ensures PeerPlaced(pairs', peers - {s}, t) {
      assert PeerPlaced(pairs, peers, t);
      VacatePlacesPeer(pairs, peers, s, t);
    }
    forall k ensures PairPlaced(pairs', peers - {s}, k) {
      assert PairPlaced(pairs, peers, k);
      VacatePlacesPair(pairs, peers, s, k);
    }
  }

  lemma WithoutPeerAgrees(g: State, s: Socket)
    requires Agree(g.pairs, g.peers)
    ensures var g' := WithoutPeer(g, s);
            Agree(g'.pairs, g'.peers) && g'.peers == g.peers - {s} && g'.pairs.Keys == g.pairs.Keys
  {
    if s in g.peers {
      assert PeerPlaced(g.pairs, g.peers, s);
      VacateAgrees(g.pairs, g.peers, s);
      assert WithoutPeer(g, s).pairs == g.pairs[g.peers[s].key := Emptied(g.pairs[g.peers[s].key], g.peers[s].role)];
    } else {
      assert g.peers - {s} == g.peers;
    }
  }

  /** A pairing a bind may join: the one on file, or an empty one filed nowhere yet. */
  ghost predicate Joinable(pairs: map<string, Pairing>, q: Pairing, nextId: nat, max: nat) {
    && q.key == PairingKey.Key(q.sessionId, q.viewerGeneration)
    && if q.key in pairs then pairs[q.key] == q
       else q.core.None? && q.viewer.None? && q.claims.None? && q.timerArmed && q.id == nextId && |pairs| < max
  }

  lemma GetOrCreateIsJoinable(g: State, sessionId: string, viewerGeneration: nat)
    requires Agree(g.pairs, g.peers)
    ensures var r := GetOrCreatePairing(g, sessionId, viewerGeneration);
            r.Some? ==> Joinable(g.pairs, r.value, g.nextId, g.config.maxPendingPairs)
                        && r.value.sessionId == sessionId && r.value.viewerGeneration == viewerGeneration
  {
    var key := PairingKey.Key(sessionId, viewerGeneration);
    assert PairPlaced(g.pairs, g.peers, key);
    if key in g.pairs {
      var p := g.pairs[key];
      PairingKey.KeysAreInjective(sessionId, viewerGeneration, p.sessionId, p.viewerGeneration);
    }
  }

  function Fill(q: Pairing, socket: Socket, role: Role, claims: Option<Claims>): Pairing {
    if role.Core? then q.(core := Some(socket)) else q.(viewer := Some(socket), claims := claims)
  }

  /** The pairing with its timer cleared once it is full. */
  function Settled(p: Pairing): Pairing {
    if p.core.Some? && p.viewer.Some? && p.claims.Some? then p.(timerArmed := false) else p
  }

  ghost predicate Vouched(q: Pairing, role: Role, claims: Option<Claims>) {
    role.Viewer? ==> claims.Some? && claims.value.sessionId == q.sessionId && claims.value.viewerGeneration == q.viewerGeneration
  }

  lemma EnterPlacesPeer(pairs: map<string, Pairing>, peers: map<Socket, BoundPeer>, q: Pairing, s: Socket, role: Role, claims: Option<Claims>, t: Socket)
    requires PeerPlaced(pairs, peers, t) && s !in peers && (q.key in pairs ==> pairs[q.key] == q)
    requires SlotOf(q, role).None?
    ensures PeerPlaced(pairs[q.key := Settled(Fill(q, s, role, claims))], peers[s := BoundPeer(role, q.key)], t)
  {
  }

  lemma EnterPlacesPair(pairs: map<string, Pairing>, peers: map<Socket, BoundPeer>, q: Pairing, s: Socket, role: Role, claims: Option<Claims>, k: string, nextId: nat, max: nat)
    requires PairPlaced(pairs, peers, k) && s !in peers && Joinable(pairs, q, nextId, max)
    requires SlotOf(q, role).None? && Vouched(q, role, claims)
    ensures PairPlaced(pairs[q.key := Settled(Fill(q, s, role, claims))], peers[s := BoundPeer(role, q.key)], k)
  {
  }

  lemma EnterMapsAgree(pairs: map<string, Pairing>, peers: map<Socket, BoundPeer>, q: Pairing, s: Socket, role: Role, claims: Option<Claims>, nextId: nat, max: nat)
    requires Agree(pairs, peers) && s !in peers
    requires Joinable(pairs, q, nextId, max) && SlotOf(q, role).None? && Vouched(q, role, claims)
    ensures Agree(pairs[q.key := Settled(Fill(q, s, role, claims))], peers[s := BoundPeer(role, q.key)])
  {
    var pairs', peers' := pairs[q.key := Settled(Fill(q, s, role, claims))], peers[s := BoundPeer(role, q.key)];
    forall t ensures PeerPlaced(pairs', peers', t) {
      assert PeerPlaced(pairs, peers, t);
      EnterPlacesPeer(pairs, peers, q, s, role, claims, t);
    }
    forall k ensures PairPlaced(pairs', peers', k) {
      assert PairPlaced(pairs, peers, k);
      EnterPlacesPair(pairs, peers, q, s, role, claims, k, nextId, max);
    }
  }

  lemma EnterAgrees(g: State, q: Pairing, s: Socket, role: Role, claims: Option<Claims>)
    requires Agree(g.pairs, g.peers) && s !in g.peers
    requires Joinable(g.pairs, q, g.nextId, g.config.maxPendingPairs) && SlotOf(q, role).None? && Vouched(q, role, claims)
    ensures var g' := EnterPairing(g, Fill(q, s, role, claims), s, role);
            && Agree(g'.pairs, g'.peers) && g'.pairs == g.pairs[q.key := Settled(Fill(q, s, role, claims))]
            && g'.peers == g.peers[s := BoundPeer(role, q.key)]
  {
    EnterFields(g, Fill(q, s, role, claims), s, role);
    EnterMapsAgree(g.pairs, g.peers, q, s, role, claims, g.nextId, g.config.maxPendingPairs);
  }

  lemma EnterStaysBelow(pairs: map<string, Pairing>, key: string, p: Pairing, max: nat)
    requires |pairs| <= max && (key !in pairs ==> |pairs| < max)
    ensures |pairs[key := p]| <= max
  {
    assert pairs[key := p].Keys == pairs.Keys + {key};
    if key in pairs {
      assert pairs.Keys + {key} == pairs.Keys;
    }
  }

  function Held(slot: Option<Socket>): set<Socket> {
    if slot.Some? then {slot.value} else {}
  }

  function Members(p: Pairing): set<Socket> {
    Held(p.core) + Held(p.viewer)
  }

  lemma DeletePairAgrees(pairs: map<string, Pairing>, peers: map<Socket, BoundPeer>, key: string)
    requires Agree(pairs, peers) && key in pairs
    ensures Agree(pairs - {key}, peers - Members(pairs[key]))
    ensures forall s :: s in Members(pairs[key]) <==> s in peers && peers[s].key == key
  {
    assert PairPlaced(pairs, peers, key);
    var pairs', peers' := pairs - {key}, peers - Members(pairs[key]);
    forall t ensures PeerPlaced(pairs', peers', t) && (t in Members(pairs[key]) <==> t in peers && peers[t].key == key) {
      assert PeerPlaced(pairs, peers, t);
    }
    forall k ensures PairPlaced(pairs', peers', k) {
      assert PairPlaced(pairs, peers, k);
    }
  }

  lemma EvictFields(g: State, slot: Option<Socket>)
    ensures var g' := Evict(g, slot);
            && g' == g.(peers := g'.peers, open := g'.open, sent := g'.sent)
            && g'.peers == g.peers - Held(slot) && g'.open == g.open - Held(slot)
  {
    assert g.peers - {} == g.peers;
  }

  lemma ExpireFields(g: State, key: string)
    requires key in g.pairs
    ensures var g' := ExpireStep(g, key);
            && g' == g.(pairs := g.pairs - {key}, peers := g'.peers, open := g'.open, sent := g'.sent)
            && g'.peers == g.peers - Members(g.pairs[key]) && g'.open == g.open - Members(g.pairs[key])
  {
    var p, g0 := g.pairs[key], g.(pairs := g.pairs - {key});
    EvictFields(g0, p.core);
    EvictFields(Evict(g0, p.core), p.viewer);
    assert g.peers - Members(p) == g.peers - Held(p.core) - Held(p.viewer);
  }

  lemma ExpireAgrees(g: State, key: string)
    requires Agree(g.pairs, g.peers) && key in g.pairs
    ensures var g' := ExpireStep(g, key); Agree(g'.pairs, g'.peers)
  {
    DeletePairAgrees(g.pairs, g.peers, key);
    ExpireFields(g, key);
  }

  // --------------------------------------------------------- suspended binds

  /** A suspended bind of a live connection is the only one, is marked, and is not yet a peer. */
  ghost predicate Waiting(auths: map<nat, Authentication>, open: set<Socket>, connections: map<Socket, ConnectionRecord>, peers: map<Socket, BoundPeer>, id: nat) {
    id in auths && auths[id].socket in open && auths[id].socket in connections ==>
      && connections[auths[id].socket].bindInProgress && auths[id].socket !in peers
  }

  ghost predicate Alone(auths: map<nat, Authentication>, open: set<Socket>, connections: map<Socket, ConnectionRecord>, i: nat, j: nat) {
    i in auths && j in auths && i != j && auths[i].socket == auths[j].socket ==> auths[i].socket !in open || auths[i].socket !in connections
  }

  ghost predicate Suspended(auths: map<nat, Authentication>, open: set<Socket>, connections: map<Socket, ConnectionRecord>, peers: map<Socket, BoundPeer>) {
    && (forall id {:trigger Waiting(auths, open, connections, peers, id)} :: Waiting(auths, open, connections, peers, id))
    && (forall i, j {:trigger Alone(auths, open, connections, i, j)} :: Alone(auths, open, connections, i, j))
  }

  /** Every socket mentioned anywhere was once accepted, and every identifier was once issued. */
  ghost predicate Known(auths: map<nat, Authentication>, completions: map<nat, Completion>, pairs: map<string, Pairing>, nextId: nat, seen: set<Socket>) {
    && (forall id :: id in auths ==> id < nextId && auths[id].socket in seen)
    && (forall id :: id in completions ==> id < nextId)
    && (forall key :: key in pairs ==> pairs[key].id < nextId)
  }

  // --------------------------------------------------- connection accounting

  ghost function From(connections: map<Socket, ConnectionRecord>, address: string): set<Socket> {
    set s | s in connections && connections[s].address == address
  }

  ghost predicate AddressCounted(connections: map<Socket, ConnectionRecord>, byAddress: map<string, nat>, max: nat, address: string) {
    && |From(connections, address)| <= max
    && (address in byAddress <==> From(connections, address) != {})
    && (address in byAddress ==> byAddress[address] == |From(connections, address)|)
  }

  ghost predicate Counted(connections: map<Socket, ConnectionRecord>, byAddress: map<string, nat>, max: nat) {
    forall address {:trigger AddressCounted(connections, byAddress, max, address)} :: AddressCounted(connections, byAddress, max, address)
  }

  lemma AcceptCounts(g: State, s: Socket, address: string, nowMs: int)
    requires Counted(g.connections, g.connectionsByAddress, g.config.maxConnectionsPerIp)
    requires |g.connections| <= g.config.maxConnections && s !in g.connections
    ensures var g' := AcceptStep(g, s, address, nowMs);
            && Counted(g'.connections, g'.connectionsByAddress, g.config.maxConnectionsPerIp)
            && |g'.connections| <= g.config.maxConnections
  {
    var max := g.config.maxConnectionsPerIp;
    var n := if address in g.connectionsByAddress then g.connectionsByAddress[address] else 0;
    if |g.connections| < g.config.maxConnections && n < max {
      assert AddressCounted(g.connections, g.connectionsByAddress, max, address);
      InsertCounts(g.connections, g.connectionsByAddress, max, s, ConnectionRecord(address, nowMs, 0, false));
    }
  }

  lemma InsertCounts(c: map<Socket, ConnectionRecord>, byAddress: map<string, nat>, max: nat, s: Socket, record: ConnectionRecord)
    requires Counted(c, byAddress, max) && s !in c && |From(c, record.address)| < max
    ensures Counted(c[s := record], byAddress[record.address := |From(c, record.address)| + 1], max)
    ensures |c[s := record]| == |c| + 1
  {
    var c', b' := c[s := record], byAddress[record.address := |From(c, record.address)| + 1];
    forall a ensures AddressCounted(c', b', max, a) {
      assert AddressCounted(c, byAddress, max, a);
      InsertCountsAt(c, byAddress, max, s, record, a);
    }
    assert c'.Keys == c.Keys + {s};
  }

  lemma InsertCountsAt(c: map<Socket, ConnectionRecord>, byAddress: map<string, nat>, max: nat, s: Socket, record: ConnectionRecord, a: string)
    requires AddressCounted(c, byAddress, max, a) && s !in c && |From(c, record.address)| < max
    ensures AddressCounted(c[s := record], byAddress[record.address := |From(c, record.address)| + 1], max, a)
  {
    var c' := c[s := record];
    if a == record.address {
      assert From(c', a) == From(c, a) + {s};
      assert s !in From(c, a);
    } else {
      assert From(c', a) == From(c, a);
    }
  }

  lemma DropCountsAt(c: map<Socket, ConnectionRecord>, byAddress: map<string, nat>, byAddress': map<string, nat>, max: nat, s: Socket, a: string)
    requires s in c && AddressCounted(c, byAddress, max, c[s].address) && AddressCounted(c, byAddress, max, a)
    requires c[s].address in byAddress
    requires byAddress' == if byAddress[c[s].address] <= 1 then byAddress - {c[s].address}
                           else byAddress[c[s].address := byAddress[c[s].address] - 1]
    ensures AddressCounted(c - {s}, byAddress', max, a)
  {
    if a == c[s].address {
      assert From(c - {s}, a) == From(c, a) - {s};
      assert s in From(c, a);
    } else {
      assert From(c - {s}, a) == From(c, a);
    }
  }

  lemma DropCountsEverywhere(c: map<Socket, ConnectionRecord>, byAddress: map<string, nat>, byAddress': map<string, nat>, max: nat, s: Socket)
    requires Counted(c, byAddress, max) && s in c && c[s].address in byAddress
    requires byAddress' == if byAddress[c[s].address] <= 1 then byAddress - {c[s].address}
                           else byAddress[c[s].address := byAddress[c[s].address] - 1]
    ensures Counted(c - {s}, byAddress', max)
  {
    forall a ensures AddressCounted(c - {s}, byAddress', max, a) {
      assert AddressCounted(c, byAddress, max, a) && AddressCounted(c, byAddress, max, c[s].address);
      DropCountsAt(c, byAddress, byAddress', max, s, a);
    }
  }

  lemma DropShrinks(c: map<Socket, ConnectionRecord>, s: Socket)
    ensures |c - {s}| <= |c| && (s !in c ==> c - {s} == c)
  {
    assert (c - {s}).Keys == c.Keys - {s};
    if s in c {
      assert |c.Keys - {s}| == |c.Keys| - 1;
    } else {
      assert c - {s} == c;
    }
  }

  lemma DropCounts(g: State, s: Socket)
    requires Counted(g.connections, g.connectionsByAddress, g.config.maxConnectionsPerIp)
    requires |g.connections| <= g.config.maxConnections
    ensures var g' := WithoutConnection(g, s);
            && Counted(g'.connections, g'.connectionsByAddress, g.config.maxConnectionsPerIp)
            && |g'.connections| <= g.config.maxConnections
            && g'.connections == g.connections - {s}
  {
    DropShrinks(g.connections, s);
    if s in g.connections {
      var address := g.connections[s].address;
      assert AddressCounted(g.connections, g.connectionsByAddress, g.config.maxConnectionsPerIp, address);
      assert s in From(g.connections, address);
      DropCountsEverywhere(g.connections, g.connectionsByAddress, WithoutConnection(g, s).connectionsByAddress, g.config.maxConnectionsPerIp, s);
    }
  }

  /** Rewriting records without their addresses changes no count. */
  lemma RewriteCounts(c: map<Socket, ConnectionRecord>, c': map<Socket, ConnectionRecord>, byAddress: map<string, nat>, max: nat)
    requires Counted(c, byAddress, max)
    requires c'.Keys == c.Keys && forall s :: s in c ==> c'[s].address == c[s].address
    ensures Counted(c', byAddress, max) && |c'| == |c|
  {
    forall a ensures AddressCounted(c', byAddress, max, a) {
      assert AddressCounted(c, byAddress, max, a);
      assert From(c', a) == From(c, a);
    }
  }

  // --------------------------------------------------------------- invariant

  ghost predicate Inv(g: State) {
    && Agree(g.pairs, g.peers) && |g.pairs| <= g.config.maxPendingPairs
    && Counted(g.connections, g.connectionsByAddress, g.config.maxConnectionsPerIp) && |g.connections| <= g.config.maxConnections
    && g.peers.Keys <= g.connections.Keys <= g.seen && g.open <= g.seen
    && Suspended(g.authentications, g.open, g.connections, g.peers)
    && Known(g.authentications, g.completions, g.pairs, g.nextId, g.seen)
  }

  /** Losing sockets, peers, or suspended binds endangers no bind that is still suspended. */
  lemma FewerSuspended(
    auths: map<nat, Authentication>, open: set<Socket>, connections: map<Socket, ConnectionRecord>, peers: map<Socket, BoundPeer>,
    auths': map<nat, Authentication>, open': set<Socket>, connections': map<Socket, ConnectionRecord>, peers': map<Socket, BoundPeer>)
    requires Suspended(auths, open, connections, peers)
    requires forall id :: id in auths' ==> id in auths && auths'[id] == auths[id]
    requires open' <= open && connections'.Keys <= connections.Keys && peers'.Keys <= peers.Keys
    requires forall s :: s in connections' && s in open' && connections[s].bindInProgress ==> connections'[s].bindInProgress
    ensures Suspended(auths', open', connections', peers')
  {
    forall id ensures Waiting(auths', open', connections', peers', id) {
      assert Waiting(auths, open, connections, peers, id);
    }
    forall i, j ensures Alone(auths', open', connections', i, j) {
      assert Alone(auths, open, connections, i, j);
    }
  }

  lemma SendKeeps(g: State, to: Socket, message: Outgoing)
    requires Inv(g)
    ensures Inv(Send(g, to, message))
  {
  }

  lemma ClosingKeeps(g: State, s: Socket)
    requires Inv(g)
    ensures Inv(Closing(g, s))
  {
    FewerSuspended(g.authentications, g.open, g.connections, g.peers, g.authentications, g.open - {s}, g.connections, g.peers);
  }

  function Unmarked(connections: map<Socket, ConnectionRecord>, s: Socket): map<Socket, ConnectionRecord> {
    if s in connections then connections[s := connections[s].(bindInProgress := false)] else connections
  }

  lemma RejectFields(g: State, s: Socket, code: ErrorCode)
    ensures var g' := RejectBindFailure(g, s, code);
            g' == g.(connections := Unmarked(g.connections, s), open := g.open - {s}, sent := g'.sent)
  {
    var g1 := g.(connections := Unmarked(g.connections, s));
    if s !in g.connections {
      assert g1 == g;
    }
    assert RejectBindFailure(g, s, code) == RejectSocket(g1, s, code);
  }

  lemma RejectKeeps(g: State, s: Socket, code: ErrorCode)
    requires Inv(g)
    ensures Inv(RejectBindFailure(g, s, code))
  {
    var connections' := RejectBindFailure(g, s, code).connections;
    RejectFields(g, s, code);
    RewriteCounts(g.connections, connections', g.connectionsByAddress, g.config.maxConnectionsPerIp);
    FewerSuspended(g.authentications, g.open, g.connections, g.peers, g.authentications, g.open - {s}, connections', g.peers);
  }

  lemma ForgetBindKeeps(g: State, id: nat)
    requires Inv(g)
    ensures Inv(g.(authentications := g.authentications - {id}))
  {
    FewerSuspended(g.authentications, g.open, g.connections, g.peers, g.authentications - {id}, g.open, g.connections, g.peers);
  }

  lemma VacateIsKnown(pairs: map<string, Pairing>, nextId: nat, key: string, role: Role)
    requires key in pairs && forall k :: k in pairs ==> pairs[k].id < nextId
    ensures var pairs' := pairs[key := Emptied(pairs[key], role)]; forall k :: k in pairs' ==> pairs'[k].id < nextId
  {
  }

  lemma WithoutPeerIsKnown(g: State, s: Socket)
    requires Known(g.authentications, g.completions, g.pairs, g.nextId, g.seen) && Agree(g.pairs, g.peers)
    ensures Known(g.authentications, g.completions, WithoutPeer(g, s).pairs, g.nextId, g.seen)
  {
    if s in g.peers {
      assert PeerPlaced(g.pairs, g.peers, s);
      VacateIsKnown(g.pairs, g.nextId, g.peers[s].key, g.peers[s].role);
      assert WithoutPeer(g, s).pairs == g.pairs[g.peers[s].key := Emptied(g.pairs[g.peers[s].key], g.peers[s].role)];
    }
  }

  lemma WithoutPeerKeeps(g: State, s: Socket)
    requires Inv(g)
    ensures Inv(WithoutPeer(g, s)) && WithoutPeer(g, s).peers == g.peers - {s}
  {
    var g' := WithoutPeer(g, s);
    WithoutPeerFields(g, s);
    WithoutPeerAgrees(g, s);
    WithoutPeerIsKnown(g, s);
    assert |g'.pairs| == |g'.pairs.Keys| == |g.pairs.Keys|;
    FewerSuspended(g.authentications, g.open, g.connections, g.peers, g.authentications, g.open, g.connections, g'.peers);
  }

  lemma WithoutPeerFields(g: State, s: Socket)
    ensures var g' := WithoutPeer(g, s); g' == g.(pairs := g'.pairs, peers := g'.peers, sent := g'.sent)
  {
  }

  lemma WithoutConnectionKeeps(g: State, s: Socket)
    requires Inv(g) && s !in g.peers
    ensures Inv(WithoutConnection(g, s))
  {
    var g' := WithoutConnection(g, s);
    assert g' == g.(connections := g'.connections, connectionsByAddress := g'.connectionsByAddress);
    DropCounts(g, s);
    FewerSuspended(g.authentications, g.open, g.connections, g.peers, g.authentications, g.open, g'.connections, g.peers);
  }

  lemma GoneKeeps(g: State, s: Socket)
    requires Inv(g)
    ensures Inv(WithoutConnection(WithoutPeer(g, s), s))
    ensures WithoutConnection(WithoutPeer(g, s), s).peers == g.peers - {s}
  {
    WithoutPeerKeeps(g, s);
    WithoutConnectionKeeps(WithoutPeer(g, s), s);
  }

  lemma ExpireKeeps(g: State, key: string)
    requires Inv(g) && key in g.pairs
    ensures Inv(ExpireStep(g, key))
  {
    var g' := ExpireStep(g, key);
    ExpireFields(g, key);
    ExpireAgrees(g, key);
    assert g'.pairs.Keys == g.pairs.Keys - {key};
    assert |g'.pairs.Keys| < |g.pairs.Keys|;
    FewerSuspended(g.authentications, g.open, g.connections, g.peers, g.authentications, g'.open, g.connections, g'.peers);
  }

  lemma AcceptSuspends(
    auths: map<nat, Authentication>, open: set<Socket>, connections: map<Socket, ConnectionRecord>, peers: map<Socket, BoundPeer>,
    open': set<Socket>, connections': map<Socket, ConnectionRecord>, s: Socket)
    requires Suspended(auths, open, connections, peers) && forall id :: id in auths ==> auths[id].socket != s
    requires forall t :: t != s ==> (t in open' <==> t in open) && (t in connections' <==> t in connections)
    requires forall t :: t != s && t in connections ==> connections'[t] == connections[t]
    ensures Suspended(auths, open', connections', peers)
  {
    forall id ensures Waiting(auths, open', connections', peers, id) {
      assert Waiting(auths, open, connections, peers, id);
    }
    forall i, j ensures Alone(auths, open', connections', i, j) {
      assert Alone(auths, open, connections, i, j);
    }
  }

  lemma AcceptFields(g: State, s: Socket, address: string, nowMs: int)
    ensures var g' := AcceptStep(g, s, address, nowMs);
            && g' == g.(seen := g.seen + {s}, open := g'.open, connections := g'.connections, connectionsByAddress := g'.connectionsByAddress)
            && ((g'.open == g.open && g'.connections == g.connections)
                || (g'.open == g.open + {s} && g'.connections == g.connections[s := ConnectionRecord(address, nowMs, 0, false)]))
  {
  }

  lemma AcceptKeeps(g: State, s: Socket, address: string, nowMs: int)
    requires Inv(g) && s !in g.seen
    ensures Inv(AcceptStep(g, s, address, nowMs))
  {
    var g' := AcceptStep(g, s, address, nowMs);
    AcceptFields(g, s, address, nowMs);
    AcceptCounts(g, s, address, nowMs);
    AcceptSuspends(g.authentications, g.open, g.connections, g.peers, g'.open, g'.connections, s);
  }

  lemma CountKeeps(g: State, s: Socket, nowMs: int)
    requires Inv(g) && s in g.connections
    ensures Inv(CountStep(g, s, nowMs))
  {
    var g' := CountStep(g, s, nowMs);
    RewriteCounts(g.connections, g'.connections, g.connectionsByAddress, g.config.maxConnectionsPerIp);
    FewerSuspended(g.authentications, g.open, g.connections, g.peers, g.authentications, g.open, g'.connections, g.peers);
  }

  /** Marks a connection as binding and files its suspended bind. */
  lemma BeginKeeps(g: State, s: Socket, bind: Authentication)
    requires Inv(g) && s in g.connections && !g.connections[s].bindInProgress && s !in g.peers && bind.socket == s
    ensures Inv(g.(connections := g.connections[s := g.connections[s].(bindInProgress := true)],
                   authentications := g.authentications[g.nextId := bind], nextId := g.nextId + 1))
  {
    var connections', auths' := g.connections[s := g.connections[s].(bindInProgress := true)], g.authentications[g.nextId := bind];
    RewriteCounts(g.connections, connections', g.connectionsByAddress, g.config.maxConnectionsPerIp);
    forall id ensures Waiting(auths', g.open, connections', g.peers, id) {
      assert Waiting(g.authentications, g.open, g.connections, g.peers, id);
    }
    forall i, j ensures Alone(auths', g.open, connections', i, j) {
      assert Alone(g.authentications, g.open, g.connections, i, j);
      assert Waiting(g.authentications, g.open, g.connections, g.peers, i) && Waiting(g.authentications, g.open, g.connections, g.peers, j);
    }
  }

  lemma MarkKeeps(g: State, s: Socket)
    requires Inv(g) && s in g.connections
    ensures Inv(g.(connections := g.connections[s := g.connections[s].(bindInProgress := true)]))
  {
    var connections' := g.connections[s := g.connections[s].(bindInProgress := true)];
    RewriteCounts(g.connections, connections', g.connectionsByAddress, g.config.maxConnectionsPerIp);
    FewerSuspended(g.authentications, g.open, g.connections, g.peers, g.authentications, g.open, connections', g.peers);
  }

  lemma BeginBindKeeps(g: State, s: Socket, message: SignalMessage)
    requires Inv(g) && s in g.connections && !g.connections[s].bindInProgress && s !in g.peers
    ensures Inv(BeginBind(g.(connections := g.connections[s := g.connections[s].(bindInProgress := true)]), s, message))
  {
    var g1 := g.(connections := g.connections[s := g.connections[s].(bindInProgress := true)]);
    match message {
      case BindViewer(_) => BeginKeeps(g, s, ViewerBind(s));
      case BindCore(sessionId, viewerGeneration, gatewayId) =>
        if gatewayId != g.config.gatewayId {
          MarkKeeps(g, s);
          RejectKeeps(g1, s, AuthFailed);
        } else {
          BeginKeeps(g, s, CoreBind(s, sessionId, viewerGeneration));
        }
      case _ =>
        MarkKeeps(g, s);
        RejectKeeps(g1, s, AuthFailed);
    }
  }

  lemma ReceiveKeeps(g: State, s: Socket, nowMs: int, frame: Frame)
    requires Inv(g)
    ensures Inv(ReceiveStep(g, s, nowMs, frame))
  {
    if s in g.connections {
      var g1 := CountStep(g, s, nowMs);
      CountKeeps(g, s, nowMs);
      if g1.connections[s].messagesInWindow > g.config.maxMessagesPerWindow {
        GoneKeeps(g1, s);
        ClosingKeeps(WithoutConnection(WithoutPeer(g1, s), s), s);
      } else if g1.connections[s].bindInProgress {
        RejectKeeps(g1, s, AuthFailed);
      } else if frame.Malformed? {
        RejectKeeps(g1, s, MessageInvalid);
      } else if s in g1.peers {
        var r := RelayTarget(g1, s, frame.message);
        if r.Ok? {
          SendKeeps(g1, r.value, Relayed(frame.message));
        } else {
          RejectKeeps(g1, s, r.error);
        }
      } else {
        BeginBindKeeps(g1, s, frame.message);
      }
    }
  }

  /** Entering a socket whose own suspended bind, now over, was the only one. */
  lemma EnterSuspends(g: State, id: nat, q: Pairing, role: Role)
    requires Inv(g) && id in g.authentications && ConnectionOpen(g, g.authentications[id].socket)
    ensures Suspended(g.authentications - {id}, g.open, g.connections, g.peers[g.authentications[id].socket := BoundPeer(role, q.key)])
  {
    var auths', peers' := g.authentications - {id}, g.peers[g.authentications[id].socket := BoundPeer(role, q.key)];
    forall i ensures Waiting(auths', g.open, g.connections, peers', i) {
      assert Waiting(g.authentications, g.open, g.connections, g.peers, i);
      assert Alone(g.authentications, g.open, g.connections, i, id);
    }
    forall i, j ensures Alone(auths', g.open, g.connections, i, j) {
      assert Alone(g.authentications, g.open, g.connections, i, j);
    }
  }

  lemma EnterIsKnown(g: State, q: Pairing, s: Socket, role: Role, claims: Option<Claims>)
    requires Known(g.authentications, g.completions, g.pairs, g.nextId, g.seen)
    requires Joinable(g.pairs, q, g.nextId, g.config.maxPendingPairs)
    ensures var g' := EnterPairing(g, Fill(q, s, role, claims), s, role);
            Known(g'.authentications, g'.completions, g'.pairs, g'.nextId, g'.seen)
  {
    var p := Fill(q, s, role, claims);
    var g' := EnterPairing(g, p, s, role);
    EnterFields(g, p, s, role);
    assert p.id == q.id && (q.key in g.pairs ==> q.id < g.nextId);
    forall key | key in g'.pairs ensures g'.pairs[key].id < g'.nextId {
    }
    forall id | id in g'.completions ensures id < g'.nextId {
    }
  }

  lemma EnterFields(g: State, p: Pairing, s: Socket, role: Role)
    ensures var g' := EnterPairing(g, p, s, role);
            && g' == g.(pairs := g.pairs[p.key := Settled(p)], peers := g.peers[s := BoundPeer(role, p.key)],
                        nextId := g.nextId + 2, completions := g'.completions)
            && g'.completions ==
                 if p.core.Some? && p.viewer.Some? && p.claims.Some?
                 then g.completions[g.nextId + 1 := Completion(p.id, p.key, p.core.value, p.viewer.value, p.claims.value, s, true)]
                 else g.completions
  {
  }

  lemma EnterKeeps(g: State, id: nat, q: Pairing, role: Role, claims: Option<Claims>)
    requires Inv(g) && id in g.authentications && ConnectionOpen(g, g.authentications[id].socket)
    requires Joinable(g.pairs, q, g.nextId, g.config.maxPendingPairs) && SlotOf(q, role).None? && Vouched(q, role, claims)
    ensures var s := g.authentications[id].socket;
            s !in g.peers && Inv(EnterPairing(g.(authentications := g.authentications - {id}), Fill(q, s, role, claims), s, role))
  {
    var s := g.authentications[id].socket;
    var g0 := g.(authentications := g.authentications - {id});
    var g' := EnterPairing(g0, Fill(q, s, role, claims), s, role);
    assert Waiting(g.authentications, g.open, g.connections, g.peers, id);
    EnterAgrees(g0, q, s, role, claims);
    EnterStaysBelow(g.pairs, q.key, Settled(Fill(q, s, role, claims)), g.config.maxPendingPairs);
    EnterSuspends(g, id, q, role);
    EnterIsKnown(g0, q, s, role, claims);
    assert g' == g0.(pairs := g'.pairs, peers := g'.peers, nextId := g'.nextId, completions := g'.completions);
  }

  lemma TicketKeeps(g: State, id: nat, claims: Option<Claims>, now: int)
    requires Inv(g) && id in g.authentications
    ensures Inv(TicketStep(g, id, claims, now))
  {
    var s, g0 := g.authentications[id].socket, g.(authentications := g.authentications - {id});
    ForgetBindKeeps(g, id);
    if !ConnectionOpen(g, s) || claims.None? {
      RejectKeeps(g0, s, AuthFailed);
    } else {
      BindTicketKeeps(g, id, claims.value, now);
    }
  }

  lemma BindTicketKeeps(g: State, id: nat, claims: Claims, now: int)
    requires Inv(g) && id in g.authentications && ConnectionOpen(g, g.authentications[id].socket)
    ensures Inv(BindTicket(g.(authentications := g.authentications - {id}), g.authentications[id].socket, claims, now))
  {
    var s, g0 := g.authentications[id].socket, g.(authentications := g.authentications - {id});
    var g1 := g0.(consumedTickets := Prune(g.consumedTickets, now));
    var refusal := TicketRefusal(g1, claims, now);
    if refusal.Some? {
      ForgetBindKeeps(g, id);
      RejectKeeps(g1, s, refusal.value);
    } else {
      var q := GetOrCreatePairing(g1, claims.sessionId, claims.viewerGeneration).value;
      GetOrCreateIsJoinable(g1, claims.sessionId, claims.viewerGeneration);
      EnterKeeps(g.(consumedTickets := g1.consumedTickets[claims.jti := claims.expiresAt]), id, q, Viewer, Some(claims));
    }
  }

  lemma CoreKeeps(g: State, id: nat, allowed: bool)
    requires Inv(g) && id in g.authentications && g.authentications[id].CoreBind?
    ensures Inv(CoreStep(g, id, allowed))
  {
    var bind, g0 := g.authentications[id], g.(authentications := g.authentications - {id});
    ForgetBindKeeps(g, id);
    if !ConnectionOpen(g, bind.socket) || !allowed {
      RejectKeeps(g0, bind.socket, AuthFailed);
    } else {
      var q := GetOrCreatePairing(g0, bind.sessionId, bind.viewerGeneration);
      GetOrCreateIsJoinable(g0, bind.sessionId, bind.viewerGeneration);
      if q.None? || q.value.core.Some? {
        RejectKeeps(g0, bind.socket, PairConflict);
      } else {
        EnterKeeps(g, id, q.value, Core, None);
      }
    }
  }

  lemma IceKeeps(g: State, id: nat, found: bool)
    requires Inv(g) && id in g.completions
    ensures Inv(IceStep(g, id, found))
  {
    var c, g0 := g.completions[id], g.(completions := g.completions - {id});
    assert Inv(g0);
    if !found {
      RejectKeeps(g0, c.binder, MessageInvalid);
    } else if PairCurrent(g, c) && !c.first {
      SendKeeps(g0, c.core, Ready(Core, c.claims));
      var g1 := Send(g0, c.core, Ready(Core, c.claims));
      SendKeeps(g1, c.viewer, Ready(Viewer, c.claims));
      var g2 := Send(g1, c.viewer, Ready(Viewer, c.claims));
      SendKeeps(g2, c.core, PeerReady);
      SendKeeps(Send(g2, c.core, PeerReady), c.viewer, PeerReady);
    }
  }

  lemma FinishKeeps(g: State, s: Socket)
    requires Inv(g) && s in g.peers
    ensures Inv(FinishStep(g, s))
  {
    var g' := FinishStep(g, s);
    assert g' == g.(connections := g'.connections) && g'.connections.Keys == g.connections.Keys;
    RewriteCounts(g.connections, g'.connections, g.connectionsByAddress, g.config.maxConnectionsPerIp);
    forall id ensures Waiting(g.authentications, g.open, g'.connections, g.peers, id) {
      assert Waiting(g.authentications, g.open, g.connections, g.peers, id);
    }
    forall i, j ensures Alone(g.authentications, g.open, g'.connections, i, j) {
      assert Alone(g.authentications, g.open, g.connections, i, j);
    }
  }

  /** Every step keeps the agreement of the five maps, whatever is suspended while it happens. */
  lemma StepKeepsInv(g: State, e: Event)
    requires Inv(g) && Enabled(g, e)
    ensures Inv(Step(g, e))
  {
    match e {
      case Accept(socket, address, nowMs) => AcceptKeeps(g, socket, address, nowMs);
      case Receive(socket, nowMs, frame) => ReceiveKeeps(g, socket, nowMs, frame);
      case TicketVerified(id, claims, now) => TicketKeeps(g, id, claims, now);
      case CoreAuthorized(id, allowed) => CoreKeeps(g, id, allowed);
      case IceServers(id, found) => IceKeeps(g, id, found);
      case BindFinished(socket) => FinishKeeps(g, socket);
      case BindTimeout(socket) =>
        SendKeeps(g, socket, Failure(AuthFailed));
        ClosingKeeps(Send(g, socket, Failure(AuthFailed)), socket);
      case NotOpen(socket) => ClosingKeeps(g, socket);
      case Gone(socket) => GoneKeeps(g, socket);
      case PairTimer(key) => ExpireKeeps(g, key);
      case Metrics(now) =>
    }
  }
}
