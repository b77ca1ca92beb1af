/**
 Resolving a Chrome target to exactly one extension runtime. Every connected service worker is
 asked; answers, disconnects, timeouts and the server's shutdown arrive in any order.
 */
module TargetResolution {
  import opened Common

  type Socket = nat
  type RuntimeId = string
  type RequestId = string

  datatype Role = ServiceWorker | Media

  datatype Peer = Peer(role: Role, runtimeId: RuntimeId, advertised: bool)

  datatype Runtime = Runtime(advertised: bool, serviceWorker: Option<Socket>, media: Option<Socket>)

  /** An entry of a request's table of resolved tabs, which iterates in insertion order. */
  datatype Hit = Hit(runtimeId: RuntimeId, tabId: int)

  datatype Resolution = Resolution(targetId: string, awaiting: set<RuntimeId>, resolved: seq<Hit>)

  datatype Rejection = ResponseMismatch | Ambiguous | Unresolved(retryable: bool) | TimedOut | ServerClosed

  datatype Outcome = Resolved(tabId: int) | Rejected(reason: Rejection)

  /** What a queried runtime did about a request. */
  datatype Reply = Found(tabId: int) | Failed | Disconnected

  /**
   The server's maps. `requested`, `queried`, `replies` and `settled` record the run: requests in
   issue order, the runtimes each one asked, what those did, and how its promise ended.
   */
  datatype Server = Server(
    peers: map<Socket, Peer>,
    runtimes: map<RuntimeId, Runtime>,
    open: set<Socket>,
    pending: map<RequestId, Resolution>,
    targetRuntimes: map<string, RuntimeId>,
    requested: seq<RequestId>,
    queried: map<RequestId, set<RuntimeId>>,
    replies: map<RequestId, map<RuntimeId, Reply>>,
    settled: map<RequestId, Outcome>)

  const EMPTY := Server(map[], map[], {}, map[], map[], [], map[], map[], map[])

  datatype Answer = TargetResolved(tabId: int) | ResolveFailed(retryable: bool)

  datatype Event =
    | Open(socket: Socket)
    | Lost(socket: Socket)
    | Bind(socket: Socket, role: Role, runtimeId: RuntimeId, advertised: bool)
    | Resolve(id: RequestId, targetId: string)
    | Reply(socket: Socket, id: RequestId, targetId: string, answer: Answer)
    | Gone(socket: Socket)
    | TimerFires(id: RequestId)
    | Shutdown

  // -------------------------------------------------------------- settling

  function Slot(runtime: Runtime, role: Role): Option<Socket> {
    if role == ServiceWorker then runtime.serviceWorker else runtime.media
  }

  function WithSlot(runtime: Runtime, role: Role, socket: Option<Socket>): Runtime {
    if role == ServiceWorker then runtime.(serviceWorker := socket) else runtime.(media := socket)
  }

  /** The runtimes whose service worker can be asked. */
  function ReadyServiceWorkers(s: Server): set<RuntimeId> {
    set r | r in s.runtimes && s.runtimes[r].serviceWorker.Some? && s.runtimes[r].serviceWorker.value in s.open
  }

  function Settle(s: Server, id: RequestId, outcome: Outcome): Server {
    s.(pending := s.pending - {id}, settled := s.settled[id := outcome])
  }

  function Without(hits: seq<Hit>, runtimeId: RuntimeId): (kept: seq<Hit>)
    ensures |kept| <= |hits|
    ensures (forall i :: 0 <= i < |hits| ==> hits[i].runtimeId != runtimeId) ==> kept == hits
  {
    if hits == [] then []
    else if hits[0].runtimeId == runtimeId then Without(hits[1..], runtimeId)
    else [hits[0]] + Without(hits[1..], runtimeId)
  }

  /** Settles a request nobody is awaited for any more, from its first resolved tab. */
  function Conclude(s: Server, id: RequestId, retryable: bool): (s': Server)
    requires id in s.pending
    ensures s'.peers == s.peers && s'.runtimes == s.runtimes
  {
    var p := s.pending[id];
    if p.resolved == [] then Settle(s, id, Rejected(Unresolved(retryable)))
    else Settle(s, id, Resolved(p.resolved[0].tabId)).(targetRuntimes := s.targetRuntimes[p.targetId := p.resolved[0].runtimeId])
  }

  function Note(s: Server, id: RequestId, runtimeId: RuntimeId, reply: Reply): (s': Server)
    ensures s'.peers == s.peers && s'.runtimes == s.runtimes
  {
    if id in s.replies then s.(replies := s.replies[id := s.replies[id][runtimeId := reply]]) else s
  }

  /** A bound service worker's answer to a request. */
  function ReplyStep(s: Server, runtimeId: RuntimeId, id: RequestId, targetId: string, answer: Answer): (s': Server)
    ensures s'.peers == s.peers && s'.runtimes == s.runtimes
  {
    if id !in s.pending then s
    else if targetId != s.pending[id].targetId then Settle(s, id, Rejected(ResponseMismatch))
    else if runtimeId !in s.pending[id].awaiting then s
    else
      var p := s.pending[id];
      var resolved := if answer.TargetResolved? then Without(p.resolved, runtimeId) + [Hit(runtimeId, answer.tabId)] else p.resolved;
      var s1 := Note(s, id, runtimeId, if answer.TargetResolved? then Found(answer.tabId) else Failed)
                .(pending := s.pending[id := p.(awaiting := p.awaiting - {runtimeId}, resolved := resolved)]);
      if answer.TargetResolved? && |resolved| > 1 then Settle(s1, id, Rejected(Ambiguous))
      else if p.awaiting - {runtimeId} != {} then s1
      else Conclude(s1, id, answer.ResolveFailed? && answer.retryable)
  }

  /** One request loses an awaited runtime. */
  function DropFrom(s: Server, id: RequestId, runtimeId: RuntimeId): Server {
    if id !in s.pending || runtimeId !in s.pending[id].awaiting then s
    else
      var p := s.pending[id];
      var s1 := Note(s, id, runtimeId, Disconnected)
                .(pending := s.pending[id := p.(awaiting := p.awaiting - {runtimeId}, resolved := Without(p.resolved, runtimeId))]);
      if p.awaiting - {runtimeId} != {} then s1 else Conclude(s1, id, true)
  }

  /** Every request of `ids` loses the runtime, in issue order. */
  function DropRuntime(s: Server, ids: seq<RequestId>, runtimeId: RuntimeId): Server
    decreases |ids|
  {
    if ids == [] then s else DropRuntime(DropFrom(s, ids[0], runtimeId), ids[1..], runtimeId)
  }

  function BindStep(s: Server, socket: Socket, role: Role, runtimeId: RuntimeId, advertised: bool): Server {
    if runtimeId in s.runtimes && s.runtimes[runtimeId].advertised != advertised then s.(open := s.open - {socket})
    else
      var runtime := if runtimeId in s.runtimes then s.runtimes[runtimeId] else Runtime(advertised, None, None);
      var previous := Slot(runtime, role);
      var kept := if previous.Some? && previous.value != socket then s.peers - {previous.value} else s.peers;
      s.(open := if previous.Some? && previous.value != socket then s.open - {previous.value} else s.open,
         peers := kept[socket := Peer(role, runtimeId, advertised)],
         runtimes := s.runtimes[runtimeId := WithSlot(runtime, role, Some(socket))])
  }

  /** The bookkeeping of a closed socket. */
  function GoneStep(s: Server, socket: Socket): Server {
    if socket !in s.peers then s
    else
      var peer := s.peers[socket];
      var s0 := s.(peers := s.peers - {socket});
      if peer.runtimeId !in s.runtimes then s0
      else
        var runtime := s.runtimes[peer.runtimeId];
        var freed := if Slot(runtime, peer.role) == Some(socket) then WithSlot(runtime, peer.role, None) else runtime;
        var s1 := s0.(runtimes := if freed.serviceWorker.None? && freed.media.None?
                                  then s.runtimes - {peer.runtimeId} else s.runtimes[peer.runtimeId := freed]);
        if peer.role == ServiceWorker && Slot(runtime, peer.role) == Some(socket) then
          var s2 := DropRuntime(s1, s.requested, peer.runtimeId);
          s2.(targetRuntimes := map t | t in s2.targetRuntimes && s2.targetRuntimes[t] != peer.runtimeId :: s2.targetRuntimes[t])
        else s1
  }

  /** Sockets open once; a bound socket does not bind again; request identifiers are fresh. */
  predicate Enabled(s: Server, e: Event) {
    match e
    case Open(socket) => socket !in s.open && socket !in s.peers
    case Bind(socket, _, _, _) => socket !in s.peers
    case Resolve(id, _) => id !in s.queried && ReadyServiceWorkers(s) != {}
    case Reply(socket, _, _, _) => socket in s.peers && s.peers[socket].role == ServiceWorker
    case TimerFires(id) => id in s.pending
    case _ => true
  }

  function Step(s: Server, e: Event): Server
    requires Enabled(s, e)
  {
    match e
    case Open(socket) => s.(open := s.open + {socket})
    case Lost(socket) => s.(open := s.open - {socket})
    case Bind(socket, role, runtimeId, advertised) => BindStep(s, socket, role, runtimeId, advertised)
    case Resolve(id, targetId) =>
      s.(pending := s.pending[id := Resolution(targetId, ReadyServiceWorkers(s), [])],
         requested := s.requested + [id],
         queried := s.queried[id := ReadyServiceWorkers(s)],
         replies := s.replies[id := map[]])
    case Reply(socket, id, targetId, answer) => ReplyStep(s, s.peers[socket].runtimeId, id, targetId, answer)
    case Gone(socket) => GoneStep(s, socket)
    case TimerFires(id) => Settle(s, id, Rejected(TimedOut))
    case Shutdown =>
      s.(pending := map[], peers := map[], runtimes := map[], targetRuntimes := map[], open := {},
         settled := s.settled + map id | id in s.pending :: Rejected(ServerClosed))
  }

  // ----------------------------------------------------------------- class

  class ExtensionLoopbackServer {
    var peers: map<Socket, Peer>
    var runtimes: map<RuntimeId, Runtime>
    var open: set<Socket>
    var pending: map<RequestId, Resolution>
    var targetRuntimes: map<string, RuntimeId>
    var requested: seq<RequestId>
    var queried: map<RequestId, set<RuntimeId>>
    var replies: map<RequestId, map<RuntimeId, Reply>>
    var settled: map<RequestId, Outcome>

    function View(): Server
      reads this
    {
      Server(peers, runtimes, open, pending, targetRuntimes, requested, queried, replies, settled)
    }

    constructor ()
      ensures View() == EMPTY
    {
      peers, runtimes, open, pending, targetRuntimes := map[], map[], {}, map[], map[];
      requested, queried, replies, settled := [], map[], map[], map[];
    }

    /** Asks every ready service worker; with none connected the call is refused. */
    method ResolveTabId(id: RequestId, targetId: string) returns (asked: bool)
      requires id !in queried
      modifies this
      ensures asked == (ReadyServiceWorkers(old(View())) != {})
      ensures View() == if asked then Step(old(View()), Resolve(id, targetId)) else old(View())
    {
      var serviceWorkers := ReadyServiceWorkers(View());
      if serviceWorkers == {} {
        return false;
      }
      pending := pending[id := Resolution(targetId, serviceWorkers, [])];
      requested := requested + [id];
      queried := queried[id := serviceWorkers];
      replies := replies[id := map[]];
      return true;
    }

    method BindRuntime(socket: Socket, role: Role, runtimeId: RuntimeId, advertised: bool)
      requires socket !in peers
      modifies this
      ensures View() == Step(old(View()), Bind(socket, role, runtimeId, advertised))
    {
      if runtimeId in runtimes && runtimes[runtimeId].advertised != advertised {
        open := open - {socket};
        return;
      }
      var runtime := if runtimeId in runtimes then runtimes[runtimeId] else Runtime(advertised, None, None);
      var previous := Slot(runtime, role);
      if previous.Some? && previous.value != socket {
        open := open - {previous.value};
        peers := peers - {previous.value};
      }
      runtimes := runtimes[runtimeId := WithSlot(runtime, role, Some(socket))];
      peers := peers[socket := Peer(role, runtimeId, advertised)];
    }

    method HandleReply(socket: Socket, id: RequestId, targetId: string, answer: Answer)
      requires Enabled(View(), Event.Reply(socket, id, targetId, answer))
      modifies this
      ensures View() == Step(old(View()), Event.Reply(socket, id, targetId, answer))
    {
      var runtimeId := peers[socket].runtimeId;
      if id !in pending {
        return;
      }
      if targetId != pending[id].targetId {
        SettleRequest(id, Rejected(ResponseMismatch));
        return;
      }
      if runtimeId !in pending[id].awaiting {
        return;
      }
      var p := pending[id];
      var awaiting := p.awaiting - {runtimeId};
      NoteReply(id, runtimeId, if answer.TargetResolved? then Found(answer.tabId) else Failed);
      if answer.TargetResolved? {
        var resolved := Without(p.resolved, runtimeId) + [Hit(runtimeId, answer.tabId)];
        pending := pending[id := p.(awaiting := awaiting, resolved := resolved)];
        if |resolved| > 1 {
          SettleRequest(id, Rejected(Ambiguous));
          return;
        }
      } else {
        pending := pending[id := p.(awaiting := awaiting)];
      }
      if awaiting != {} {
        return;
      }
      ConcludeRequest(id, answer.ResolveFailed? && answer.retryable);
    }

    method SettleRequest(id: RequestId, outcome: Outcome)
      modifies this`pending, this`settled
      ensures View() == Settle(old(View()), id, outcome)
    {
      pending := pending - {id};
      settled := settled[id := outcome];
    }

    method NoteReply(id: RequestId, runtimeId: RuntimeId, reply: Reply)
      modifies this`replies
      ensures View() == Note(old(View()), id, runtimeId, reply)
    {
      if id in replies {
        replies := replies[id := replies[id][runtimeId := reply]];
      }
    }

    method ConcludeRequest(id: RequestId, retryable: bool)
      requires id in pending
      modifies this`pending, this`settled, this`targetRuntimes
      ensures View() == Conclude(old(View()), id, retryable)
    {
      var p := pending[id];
      if p.resolved == [] {
        SettleRequest(id, Rejected(Unresolved(retryable)));
      } else {
        targetRuntimes := targetRuntimes[p.targetId := p.resolved[0].runtimeId];
        SettleRequest(id, Resolved(p.resolved[0].tabId));
      }
    }

    method RemovePeer(socket: Socket)
      modifies this
      ensures View() == Step(old(View()), Gone(socket))
    {
      if socket !in peers {
        return;
      }
      var peer := peers[socket];
      peers := peers - {socket};
      if peer.runtimeId !in runtimes {
        return;
      }
      var runtime := runtimes[peer.runtimeId];
      var owns := Slot(runtime, peer.role) == Some(socket);
      if owns {
        runtime := WithSlot(runtime, peer.role, None);
      }
      if runtime.serviceWorker.None? && runtime.media.None? {
        runtimes := runtimes - {peer.runtimeId};
      } else {
        runtimes := runtimes[peer.runtimeId := runtime];
      }
      if peer.role == ServiceWorker && owns {
        RemoveRuntimeFromTargetResolutions(peer.runtimeId);
        targetRuntimes := map t | t in targetRuntimes && targetRuntimes[t] != peer.runtimeId :: targetRuntimes[t];
      }
    }

    /** Goes through the pending requests in issue order. */
    method RemoveRuntimeFromTargetResolutions(runtimeId: RuntimeId)
      modifies this`pending, this`settled, this`targetRuntimes, this`replies
      ensures View() == DropRuntime(old(View()), old(requested), runtimeId)
    {
      ghost var start := View();
      var i := 0;
      while i < |requested|
        invariant i <= |requested|
        invariant DropRuntime(View(), requested[i..], runtimeId) == DropRuntime(start, requested, runtimeId)
      {
        var id := requested[i];
        DropRuntimeHead(View(), requested, i, runtimeId);
        DropRuntimeFrom(id, runtimeId);
        i := i + 1;
      }
    }

    method DropRuntimeFrom(id: RequestId, runtimeId: RuntimeId)
      modifies this`pending, this`settled, this`targetRuntimes, this`replies
      ensures View() == DropFrom(old(View()), id, runtimeId)
    {
      if id !in pending || runtimeId !in pending[id].awaiting {
        return;
      }
      var p := pending[id];
      var awaiting := p.awaiting - {runtimeId};
      NoteReply(id, runtimeId, Disconnected);
      pending := pending[id := p.(awaiting := awaiting, resolved := Without(p.resolved, runtimeId))];
      if awaiting != {} {
        return;
      }
      ConcludeRequest(id, true);
    }

    method ExpireRequest(id: RequestId)
      requires id in pending
      modifies this
      ensures View() == Step(old(View()), TimerFires(id))
    {
      SettleRequest(id, Rejected(TimedOut));
    }
  }

  lemma DropRuntimeHead(s: Server, ids: seq<RequestId>, i: nat, runtimeId: RuntimeId)
    requires i < |ids|
    ensures DropRuntime(s, ids[i..], runtimeId) == DropRuntime(DropFrom(s, ids[i], runtimeId), ids[i + 1..], runtimeId)
  {
    assert ids[i..][1..] == ids[i + 1..];
  }

  // ------------------------------------------------------------ invariants

  type Peers = map<Socket, Peer>
  type Runtimes = map<RuntimeId, Runtime>

  /** Bound sockets and the role slots of the runtimes are mutually inverse. */
  ghost predicate PeersMatchSlots(peers: Peers, runtimes: Runtimes) {
    && (forall k {:trigger PeerPlaced(peers, runtimes, k)} :: k in peers ==> PeerPlaced(peers, runtimes, k))
    && (forall r {:trigger RuntimePlaced(peers, runtimes, r)} :: r in runtimes ==> RuntimePlaced(peers, runtimes, r))
  }

  /** The socket fills its role's slot of its runtime. */
  predicate PeerPlaced(peers: Peers, runtimes: Runtimes, k: Socket)
    requires k in peers
  {
    peers[k].runtimeId in runtimes && Slot(runtimes[peers[k].runtimeId], peers[k].role) == Some(k)
  }

  predicate RuntimePlaced(peers: Peers, runtimes: Runtimes, r: RuntimeId)
    requires r in runtimes
  {
    SlotBound(peers, runtimes[r].serviceWorker, r, ServiceWorker) && SlotBound(peers, runtimes[r].media, r, Media)
  }

  /** The socket in a slot is bound for that runtime and role. */
  predicate SlotBound(peers: Peers, slot: Option<Socket>, r: RuntimeId, role: Role) {
    slot.Some? ==> slot.value in peers && peers[slot.value].runtimeId == r && peers[slot.value].role == role
  }

  /** What is known about a pending request agrees with the replies it got. */
  predicate Tracks(p: Resolution, queried: set<RuntimeId>, replies: map<RuntimeId, Reply>) {
    && p.awaiting <= queried && p.awaiting != {}
    && replies.Keys == queried - p.awaiting
    && |p.resolved| <= 1
    && (forall i :: 0 <= i < |p.resolved| ==>
          p.resolved[i].runtimeId in replies && replies[p.resolved[i].runtimeId] == Found(p.resolved[i].tabId))
    && (forall r :: r in replies && replies[r].Found? ==> |p.resolved| == 1 && p.resolved[0].runtimeId == r)
  }

  /** Exactly one queried runtime answered, with this tab; every other one failed or disconnected. */
  predicate ExactlyOne(tabId: int, queried: set<RuntimeId>, replies: map<RuntimeId, Reply>) {
    && replies.Keys == queried
    && exists r :: r in queried && replies[r] == Found(tabId)
         && forall q :: q in queried && q != r ==> replies[q] == Failed || replies[q] == Disconnected
  }

  /** Everything the server and the run know about one request. */
  datatype RequestView = RequestView(
    pending: Option<Resolution>, queried: set<RuntimeId>, replies: map<RuntimeId, Reply>, settled: Option<Outcome>)

  function ViewOf(s: Server, id: RequestId): RequestView
    requires id in s.queried && id in s.replies
  {
    RequestView(
      if id in s.pending then Some(s.pending[id]) else None, s.queried[id], s.replies[id],
      if id in s.settled then Some(s.settled[id]) else None)
  }

  /** Two queried runtimes found a tab. */
  predicate TwoFound(replies: map<RuntimeId, Reply>) {
    exists a, b :: a in replies && b in replies && a != b && replies[a].Found? && replies[b].Found?
  }

  /** Every queried runtime has answered or left, and none found a tab. */
  predicate NoneFound(queried: set<RuntimeId>, replies: map<RuntimeId, Reply>) {
    replies.Keys == queried && forall r :: r in replies ==> !replies[r].Found?
  }

  /** What the replies call for, in both directions. */
  ghost predicate Verdict(outcome: Outcome, queried: set<RuntimeId>, replies: map<RuntimeId, Reply>) {
    && (forall tabId {:trigger ExactlyOne(tabId, queried, replies)} :: outcome == Resolved(tabId) <==> ExactlyOne(tabId, queried, replies))
    && (outcome == Rejected(Ambiguous) <==> TwoFound(replies))
    && (outcome.Rejected? && outcome.reason.Unresolved? <==> NoneFound(queried, replies))
  }

  /** A request is pending and tracks its replies, or is settled as they call for. */
  ghost predicate Sound(v: RequestView) {
    && v.pending.Some? == v.settled.None?
    && (v.pending.Some? ==> Tracks(v.pending.value, v.queried, v.replies))
    && (v.settled.Some? ==> Verdict(v.settled.value, v.queried, v.replies))
    && (v.settled.Some? && v.settled.value.Resolved? ==> ExactlyOne(v.settled.value.tabId, v.queried, v.replies))
  }

  ghost predicate RequestsTracked(s: Server) {
    && s.replies.Keys == s.queried.Keys && s.pending.Keys <= s.queried.Keys && s.settled.Keys <= s.queried.Keys
    && forall id {:trigger ViewOf(s, id)} :: id in s.queried ==> Sound(ViewOf(s, id))
  }

  ghost predicate Inv(s: Server) {
    PeersMatchSlots(s.peers, s.runtimes) && RequestsTracked(s)
  }

  /** No settlement is ever taken back or repeated, and what a request asked is fixed. */
  predicate Extends(s: Server, s': Server) {
    && (forall id :: id in s.settled ==> id in s'.settled && s'.settled[id] == s.settled[id])
    && (forall id :: id in s.queried ==> id in s'.queried && s'.queried[id] == s.queried[id])
  }

  lemma TracksAfter(p: Resolution, queried: set<RuntimeId>, replies: map<RuntimeId, Reply>, r: RuntimeId, reply: Reply, resolved: seq<Hit>)
    requires Tracks(p, queried, replies) && r in p.awaiting
    requires resolved == p.resolved + if reply.Found? then [Hit(r, reply.tabId)] else []
    requires |resolved| <= 1
    ensures var p1, replies1 := p.(awaiting := p.awaiting - {r}, resolved := resolved), replies[r := reply];
            && (p1.awaiting != {} ==> Tracks(p1, queried, replies1))
            && (p1.awaiting == {} && resolved != [] ==> ExactlyOne(resolved[0].tabId, queried, replies1))
  {
    var p1, replies1 := p.(awaiting := p.awaiting - {r}, resolved := resolved), replies[r := reply];
    assert replies1.Keys == queried - p1.awaiting;
    forall q | q in replies1 && replies1[q].Found? ensures |resolved| == 1 && resolved[0].runtimeId == q {
      if q != r { assert q in replies && replies[q].Found?; }
    }
    if p1.awaiting == {} && resolved != [] {
      var hit := resolved[0];
      assert hit.runtimeId in replies1 && replies1[hit.runtimeId] == Found(hit.tabId);
      forall q | q in queried && q != hit.runtimeId ensures replies1[q] == Failed || replies1[q] == Disconnected {
        assert !replies1[q].Found?;
      }
    }
  }

  /** While a runtime is awaited, the replies call for nothing yet. */
  lemma OpenVerdict(p: Resolution, queried: set<RuntimeId>, replies: map<RuntimeId, Reply>, reason: Rejection)
    requires Tracks(p, queried, replies) && reason != Ambiguous && !reason.Unresolved?
    ensures Verdict(Rejected(reason), queried, replies)
  {
    assert replies.Keys != queried;
  }

  /** A second runtime that finds a tab makes the answer ambiguous. */
  lemma AmbiguousVerdict(p: Resolution, queried: set<RuntimeId>, replies: map<RuntimeId, Reply>, r: RuntimeId, tabId: int)
    requires Tracks(p, queried, replies) && r in p.awaiting && p.resolved != []
    ensures Verdict(Rejected(Ambiguous), queried, replies[r := Found(tabId)])
  {
    var first, replies1 := p.resolved[0].runtimeId, replies[r := Found(tabId)];
    assert first in replies && replies1[first].Found? && replies1[r].Found? && first != r;
  }

  /** The last awaited runtime decides. */
  lemma FinalVerdict(p: Resolution, queried: set<RuntimeId>, replies: map<RuntimeId, Reply>, r: RuntimeId, reply: Reply, resolved: seq<Hit>, retryable: bool)
    requires Tracks(p, queried, replies) && r in p.awaiting && p.awaiting - {r} == {}
    requires resolved == p.resolved + if reply.Found? then [Hit(r, reply.tabId)] else []
    requires |resolved| <= 1
    ensures Verdict(if resolved == [] then Rejected(Unresolved(retryable)) else Resolved(resolved[0].tabId), queried, replies[r := reply])
  {
    var replies1 := replies[r := reply];
    assert p.awaiting == {r};
    assert replies1.Keys == queried;
    TracksAfter(p, queried, replies, r, reply, resolved);
    forall q | q in replies1 && replies1[q].Found? ensures |resolved| == 1 && resolved[0].runtimeId == q {
      if q != r {
        assert q in replies && replies[q].Found?;
      }
    }
  }

  /** Changing what is known about one request leaves the others sound. */
  lemma ChangeOne(s: Server, s1: Server, id: RequestId)
    requires RequestsTracked(s) && id in s.pending && id in s1.replies
    requires s1.queried == s.queried && s1.replies.Keys == s.replies.Keys
    requires s1.pending.Keys <= s.queried.Keys && s1.settled.Keys <= s.queried.Keys
    requires forall other :: other in s.queried && other != id ==> ViewOf(s1, other) == ViewOf(s, other)
    requires Sound(ViewOf(s1, id))
    ensures RequestsTracked(s1) && Extends(s, s1)
  {
    assert Sound(ViewOf(s, id));
    forall other | other in s1.queried ensures Sound(ViewOf(s1, other)) {
      if other != id { assert ViewOf(s1, other) == ViewOf(s, other); }
    }
    forall other | other in s.settled ensures other in s1.settled && s1.settled[other] == s.settled[other] {
      assert other != id;
      assert ViewOf(s1, other).settled == ViewOf(s, other).settled;
    }
  }

  lemma ProgressKeeps(s: Server, s1: Server, id: RequestId, p1: Resolution, replies1: map<RuntimeId, Reply>)
    requires RequestsTracked(s) && id in s.pending && Tracks(p1, s.queried[id], replies1)
    requires s1.pending == s.pending[id := p1] && s1.replies == s.replies[id := replies1]
    requires s1.queried == s.queried && s1.settled == s.settled
    ensures RequestsTracked(s1) && Extends(s, s1)
  {
    assert Sound(ViewOf(s, id));
    assert ViewOf(s1, id) == RequestView(Some(p1), s.queried[id], replies1, None);
    ChangeOne(s, s1, id);
  }

  lemma EndKeeps(s: Server, s1: Server, id: RequestId, outcome: Outcome, replies1: map<RuntimeId, Reply>)
    requires RequestsTracked(s) && id in s.pending
    requires Verdict(outcome, s.queried[id], replies1)
    requires outcome.Resolved? ==> ExactlyOne(outcome.tabId, s.queried[id], replies1)
    requires s1.pending == s.pending - {id} && s1.replies == s.replies[id := replies1]
    requires s1.queried == s.queried && s1.settled == s.settled[id := outcome]
    ensures RequestsTracked(s1) && Extends(s, s1)
  {
    assert ViewOf(s1, id) == RequestView(None, s.queried[id], replies1, Some(outcome));
    ChangeOne(s, s1, id);
  }

  /** The state in which one reply is recorded but not yet acted on. */
  function Taken(s: Server, id: RequestId, runtimeId: RuntimeId, reply: Reply, resolved: seq<Hit>): Server
    requires id in s.pending
  {
    Note(s, id, runtimeId, reply).(
      pending := s.pending[id := s.pending[id].(awaiting := s.pending[id].awaiting - {runtimeId}, resolved := resolved)])
  }

  lemma TakeGoesOn(s: Server, id: RequestId, runtimeId: RuntimeId, reply: Reply, resolved: seq<Hit>)
    requires RequestsTracked(s) && id in s.pending && runtimeId in s.pending[id].awaiting
    requires resolved == s.pending[id].resolved + if reply.Found? then [Hit(runtimeId, reply.tabId)] else []
    requires |resolved| <= 1 && s.pending[id].awaiting - {runtimeId} != {}
    ensures RequestsTracked(Taken(s, id, runtimeId, reply, resolved)) && Extends(s, Taken(s, id, runtimeId, reply, resolved))
  {
    assert Sound(ViewOf(s, id));
    TracksAfter(s.pending[id], s.queried[id], s.replies[id], runtimeId, reply, resolved);
    var s1 := Taken(s, id, runtimeId, reply, resolved);
    ProgressKeeps(s, s1, id, s1.pending[id], s.replies[id][runtimeId := reply]);
  }

  lemma TakeConcludes(s: Server, id: RequestId, runtimeId: RuntimeId, reply: Reply, resolved: seq<Hit>, retryable: bool)
    requires RequestsTracked(s) && id in s.pending && runtimeId in s.pending[id].awaiting
    requires resolved == s.pending[id].resolved + if reply.Found? then [Hit(runtimeId, reply.tabId)] else []
    requires |resolved| <= 1 && s.pending[id].awaiting - {runtimeId} == {}
    ensures var s2 := Conclude(Taken(s, id, runtimeId, reply, resolved), id, retryable);
            RequestsTracked(s2) && Extends(s, s2)
  {
    assert Sound(ViewOf(s, id));
    TracksAfter(s.pending[id], s.queried[id], s.replies[id], runtimeId, reply, resolved);
    var s1 := Taken(s, id, runtimeId, reply, resolved);
    var s2 := Conclude(s1, id, retryable);
    assert s2.pending == s.pending - {id};
    var outcome := if resolved == [] then Rejected(Unresolved(retryable)) else Resolved(resolved[0].tabId);
    FinalVerdict(s.pending[id], s.queried[id], s.replies[id], runtimeId, reply, resolved, retryable);
    EndKeeps(s, s2, id, outcome, s.replies[id][runtimeId := reply]);
  }

  lemma NotAwaitedIsNotHit(s: Server, id: RequestId, runtimeId: RuntimeId)
    requires RequestsTracked(s) && id in s.pending && runtimeId in s.pending[id].awaiting
    ensures Without(s.pending[id].resolved, runtimeId) == s.pending[id].resolved && |s.pending[id].resolved| <= 1
  {
    var p := s.pending[id];
    assert Sound(ViewOf(s, id));
    forall i | 0 <= i < |p.resolved| ensures p.resolved[i].runtimeId != runtimeId {
      assert p.resolved[i].runtimeId in s.replies[id];
    }
  }

  lemma ReplyKeeps(s: Server, runtimeId: RuntimeId, id: RequestId, targetId: string, answer: Answer)
    requires RequestsTracked(s)
    ensures RequestsTracked(ReplyStep(s, runtimeId, id, targetId, answer))
    ensures Extends(s, ReplyStep(s, runtimeId, id, targetId, answer))
  {
    if id in s.pending && targetId == s.pending[id].targetId && runtimeId in s.pending[id].awaiting {
      NotAwaitedIsNotHit(s, id, runtimeId);
      AwaitedReplyKeeps(s, runtimeId, id, targetId, answer);
    } else if id in s.pending && targetId != s.pending[id].targetId {
      assert s.replies[id := s.replies[id]] == s.replies;
      assert Sound(ViewOf(s, id));
      OpenVerdict(s.pending[id], s.queried[id], s.replies[id], ResponseMismatch);
      EndKeeps(s, Settle(s, id, Rejected(ResponseMismatch)), id, Rejected(ResponseMismatch), s.replies[id]);
    }
  }

  /** What a reply leaves recorded before it is acted on. */
  function ReplyTaken(s: Server, runtimeId: RuntimeId, id: RequestId, answer: Answer): Server
    requires id in s.pending
  {
    var reply := if answer.TargetResolved? then Found(answer.tabId) else Failed;
    Taken(s, id, runtimeId, reply, s.pending[id].resolved + if reply.Found? then [Hit(runtimeId, reply.tabId)] else [])
  }

  lemma ReplyUnfolds(s: Server, runtimeId: RuntimeId, id: RequestId, targetId: string, answer: Answer)
    requires id in s.pending && targetId == s.pending[id].targetId && runtimeId in s.pending[id].awaiting
    requires Without(s.pending[id].resolved, runtimeId) == s.pending[id].resolved && |s.pending[id].resolved| <= 1
    ensures var s1 := ReplyTaken(s, runtimeId, id, answer);
            ReplyStep(s, runtimeId, id, targetId, answer)
            == if answer.TargetResolved? && |s.pending[id].resolved| == 1 then Settle(s1, id, Rejected(Ambiguous))
               else if s.pending[id].awaiting - {runtimeId} != {} then s1
               else Conclude(s1, id, answer.ResolveFailed? && answer.retryable)
  {
    assert s.pending[id].resolved + [] == s.pending[id].resolved;
  }

  lemma SecondHitKeeps(s: Server, runtimeId: RuntimeId, id: RequestId, tabId: int)
    requires RequestsTracked(s) && id in s.pending && runtimeId in s.pending[id].awaiting && |s.pending[id].resolved| == 1
    ensures var s' := Settle(ReplyTaken(s, runtimeId, id, TargetResolved(tabId)), id, Rejected(Ambiguous));
            RequestsTracked(s') && Extends(s, s')
  {
    var s' := Settle(ReplyTaken(s, runtimeId, id, TargetResolved(tabId)), id, Rejected(Ambiguous));
    assert s'.pending == s.pending - {id};
    assert Sound(ViewOf(s, id));
    AmbiguousVerdict(s.pending[id], s.queried[id], s.replies[id], runtimeId, tabId);
    EndKeeps(s, s', id, Rejected(Ambiguous), s.replies[id][runtimeId := Found(tabId)]);
  }

  lemma AwaitedReplyKeeps(s: Server, runtimeId: RuntimeId, id: RequestId, targetId: string, answer: Answer)
    requires RequestsTracked(s) && id in s.pending
    requires targetId == s.pending[id].targetId && runtimeId in s.pending[id].awaiting
    requires Without(s.pending[id].resolved, runtimeId) == s.pending[id].resolved && |s.pending[id].resolved| <= 1
    ensures RequestsTracked(ReplyStep(s, runtimeId, id, targetId, answer))
    ensures Extends(s, ReplyStep(s, runtimeId, id, targetId, answer))
  {
    var reply := if answer.TargetResolved? then Found(answer.tabId) else Failed;
    var retryable := answer.ResolveFailed? && answer.retryable;
    var resolved := s.pending[id].resolved + if reply.Found? then [Hit(runtimeId, reply.tabId)] else [];
    ReplyUnfolds(s, runtimeId, id, targetId, answer);
    if answer.TargetResolved? && |s.pending[id].resolved| == 1 {
      SecondHitKeeps(s, runtimeId, id, answer.tabId);
    } else if s.pending[id].awaiting - {runtimeId} != {} {
      TakeGoesOn(s, id, runtimeId, reply, resolved);
    } else {
      TakeConcludes(s, id, runtimeId, reply, resolved, retryable);
    }
  }

  lemma DropFromKeeps(s: Server, id: RequestId, runtimeId: RuntimeId)
    requires RequestsTracked(s)
    ensures RequestsTracked(DropFrom(s, id, runtimeId)) && Extends(s, DropFrom(s, id, runtimeId))
    ensures DropFrom(s, id, runtimeId).peers == s.peers && DropFrom(s, id, runtimeId).runtimes == s.runtimes
  {
    if id in s.pending && runtimeId in s.pending[id].awaiting {
      NotAwaitedIsNotHit(s, id, runtimeId);
      if s.pending[id].awaiting - {runtimeId} != {} {
        TakeGoesOn(s, id, runtimeId, Disconnected, s.pending[id].resolved);
      } else {
        TakeConcludes(s, id, runtimeId, Disconnected, s.pending[id].resolved, true);
      }
    }
  }

  lemma {:induction false} DropRuntimeKeeps(s: Server, ids: seq<RequestId>, runtimeId: RuntimeId)
    requires RequestsTracked(s)
    ensures RequestsTracked(DropRuntime(s, ids, runtimeId)) && Extends(s, DropRuntime(s, ids, runtimeId))
    ensures DropRuntime(s, ids, runtimeId).peers == s.peers && DropRuntime(s, ids, runtimeId).runtimes == s.runtimes
    decreases |ids|
  {
    if ids != [] {
      DropFromKeeps(s, ids[0], runtimeId);
      DropRuntimeKeeps(DropFrom(s, ids[0], runtimeId), ids[1..], runtimeId);
    }
  }

  /** The tables with the socket of one slot replaced. */
  lemma SlotsAfterBind(peers: Peers, runtimes: Runtimes, runtime: Runtime, socket: Socket, peer: Peer)
    requires PeersMatchSlots(peers, runtimes) && socket !in peers
    requires runtime == if peer.runtimeId in runtimes then runtimes[peer.runtimeId] else Runtime(runtime.advertised, None, None)
    ensures var previous := Slot(runtime, peer.role);
            var kept := if previous.Some? then peers - {previous.value} else peers;
            PeersMatchSlots(kept[socket := peer], runtimes[peer.runtimeId := WithSlot(runtime, peer.role, Some(socket))])
  {
    var r := peer.runtimeId;
    var previous := Slot(runtime, peer.role);
    var kept := if previous.Some? then peers - {previous.value} else peers;
    var peers1, runtimes1 := kept[socket := peer], runtimes[r := WithSlot(runtime, peer.role, Some(socket))];
    if r in runtimes { assert RuntimePlaced(peers, runtimes, r); }
    forall k | k in peers1 ensures PeerPlaced(peers1, runtimes1, k) {
      if k != socket { assert PeerPlaced(peers, runtimes, k); }
    }
    forall q | q in runtimes1 ensures RuntimePlaced(peers1, runtimes1, q) {
      if q in runtimes { assert RuntimePlaced(peers, runtimes, q); }
    }
  }

  lemma BindKeeps(s: Server, socket: Socket, role: Role, runtimeId: RuntimeId, advertised: bool)
    requires PeersMatchSlots(s.peers, s.runtimes) && socket !in s.peers
    ensures var s' := BindStep(s, socket, role, runtimeId, advertised);
            PeersMatchSlots(s'.peers, s'.runtimes)
  {
    var runtime := if runtimeId in s.runtimes then s.runtimes[runtimeId] else Runtime(advertised, None, None);
    if runtimeId in s.runtimes { assert RuntimePlaced(s.peers, s.runtimes, runtimeId); }
    SlotsAfterBind(s.peers, s.runtimes, runtime, socket, Peer(role, runtimeId, advertised));
  }

  /** The tables with one socket unbound and its slot emptied. */
  lemma SlotsAfterGone(peers: Peers, runtimes: Runtimes, socket: Socket)
    requires PeersMatchSlots(peers, runtimes) && socket in peers
    ensures peers[socket].runtimeId in runtimes && Slot(runtimes[peers[socket].runtimeId], peers[socket].role) == Some(socket)
    ensures var r := peers[socket].runtimeId; var freed := WithSlot(runtimes[r], peers[socket].role, None);
            && PeersMatchSlots(peers - {socket}, runtimes[r := freed])
            && (freed.serviceWorker.None? && freed.media.None? ==> PeersMatchSlots(peers - {socket}, runtimes - {r}))
  {
    assert PeerPlaced(peers, runtimes, socket);
    var r := peers[socket].runtimeId;
    var freed := WithSlot(runtimes[r], peers[socket].role, None);
    var peers1 := peers - {socket};
    forall k | k in peers1
      ensures PeerPlaced(peers1, runtimes[r := freed], k)
      ensures freed.serviceWorker.None? && freed.media.None? ==> PeerPlaced(peers1, runtimes - {r}, k)
    {
      assert PeerPlaced(peers, runtimes, k);
    }
    forall q | q in runtimes
      ensures RuntimePlaced(peers1, runtimes[r := freed], q)
      ensures q != r ==> RuntimePlaced(peers1, runtimes - {r}, q)
    {
      assert RuntimePlaced(peers, runtimes, q);
    }
  }

  lemma GoneKeeps(s: Server, socket: Socket)
    requires Inv(s)
    ensures Inv(GoneStep(s, socket)) && Extends(s, GoneStep(s, socket))
  {
    if socket in s.peers {
      SlotsAfterGone(s.peers, s.runtimes, socket);
      var peer := s.peers[socket];
      var freed := WithSlot(s.runtimes[peer.runtimeId], peer.role, None);
      var s1 := s.(peers := s.peers - {socket},
                   runtimes := if freed.serviceWorker.None? && freed.media.None?
                               then s.runtimes - {peer.runtimeId} else s.runtimes[peer.runtimeId := freed]);
      SameRequests(s, s1);
      if peer.role == ServiceWorker {
        var s2 := DropRuntime(s1, s.requested, peer.runtimeId);
        DropRuntimeKeeps(s1, s.requested, peer.runtimeId);
        SameRequests(s2, GoneStep(s, socket));
      } else {
        assert GoneStep(s, socket) == s1;
      }
    }
  }

  /** Every step keeps the tables consistent and takes no settlement back. */
  lemma StepKeeps(s: Server, e: Event)
    requires Inv(s) && Enabled(s, e)
    ensures Inv(Step(s, e)) && Extends(s, Step(s, e))
  {
    match e {
      case Bind(socket, role, runtimeId, advertised) =>
        BindKeeps(s, socket, role, runtimeId, advertised);
        SameRequests(s, Step(s, e));
      case Reply(socket, id, targetId, answer) =>
        ReplyKeeps(s, s.peers[socket].runtimeId, id, targetId, answer);
      case Gone(socket) => GoneKeeps(s, socket);
      case TimerFires(id) =>
        assert Sound(ViewOf(s, id));
        OpenVerdict(s.pending[id], s.queried[id], s.replies[id], TimedOut);
        EndKeeps(s, Step(s, e), id, Rejected(TimedOut), s.replies[id]);
      case Resolve(id, targetId) => ResolveKeeps(s, id, targetId);
      case Shutdown => ShutdownKeeps(s);
      case Open(_) => OpenOnly(s, Step(s, e));
      case Lost(_) => OpenOnly(s, Step(s, e));
    }
  }

  /** Which sockets are open plays no part in the invariant. */
  lemma OpenOnly(s: Server, s1: Server)
    requires Inv(s) && s1 == s.(open := s1.open)
    ensures Inv(s1) && Extends(s, s1)
  {
    SameRequests(s, s1);
  }

  lemma SameRequests(s: Server, s1: Server)
    requires RequestsTracked(s)
    requires s1.pending == s.pending && s1.queried == s.queried && s1.replies == s.replies && s1.settled == s.settled
    ensures RequestsTracked(s1) && Extends(s, s1)
  {
    forall id | id in s1.queried ensures Sound(ViewOf(s1, id)) {
      assert ViewOf(s1, id) == ViewOf(s, id);
    }
  }

  lemma ResolveKeeps(s: Server, id: RequestId, targetId: string)
    requires Inv(s) && Enabled(s, Resolve(id, targetId))
    ensures Inv(Step(s, Resolve(id, targetId))) && Extends(s, Step(s, Resolve(id, targetId)))
  {
    var s1 := Step(s, Resolve(id, targetId));
    forall other | other in s1.queried ensures Sound(ViewOf(s1, other)) {
      if other != id { assert ViewOf(s1, other) == ViewOf(s, other); }
    }
  }

  lemma ShutdownIsSound(s: Server, id: RequestId)
    requires Inv(s) && id in s.queried
    ensures Sound(ViewOf(Step(s, Shutdown), id))
    ensures id in s.settled ==> id in Step(s, Shutdown).settled && Step(s, Shutdown).settled[id] == s.settled[id]
  {
    assert Sound(ViewOf(s, id));
    if id in s.pending {
      OpenVerdict(s.pending[id], s.queried[id], s.replies[id], ServerClosed);
    }
  }

  lemma ShutdownKeeps(s: Server)
    requires Inv(s)
    ensures Inv(Step(s, Shutdown)) && Extends(s, Step(s, Shutdown))
  {
    forall id | id in s.queried
      ensures Sound(ViewOf(Step(s, Shutdown), id))
      ensures id in s.settled ==> id in Step(s, Shutdown).settled && Step(s, Shutdown).settled[id] == s.settled[id]
    {
      ShutdownIsSound(s, id);
    }
  }

  function Run(events: seq<Event>): Option<Server> {
    if events == [] then Some(EMPTY)
    else
      var before := Run(events[..|events| - 1]);
      if before.Some? && Enabled(before.value, events[|events| - 1])
      then Some(Step(before.value, events[|events| - 1])) else None
  }

  /**
   Over every run a request is pending or settled, never both, and what it asked decides how: it is
   resolved to a tab if and only if exactly one of the runtimes it asked answered, with that tab, and
   every other one failed or left; it is ambiguous if and only if two answered; it is unresolved if and
   only if all failed or left. This holds whichever path settled it.
   */
  lemma {:induction false} SuccessMeansExactlyOne(events: seq<Event>)
    requires Run(events).Some?
    ensures Inv(Run(events).value)
    ensures var s := Run(events).value;
            forall id :: id in s.queried ==>
              && (id in s.pending <==> id !in s.settled)
              && (id in s.settled && s.settled[id].Resolved? ==> ExactlyOne(s.settled[id].tabId, s.queried[id], s.replies[id]))
              && (forall tabId :: ExactlyOne(tabId, s.queried[id], s.replies[id]) <==> id in s.settled && s.settled[id] == Resolved(tabId))
              && (TwoFound(s.replies[id]) <==> id in s.settled && s.settled[id] == Rejected(Ambiguous))
              && (NoneFound(s.queried[id], s.replies[id]) <==>
                    id in s.settled && s.settled[id].Rejected? && s.settled[id].reason.Unresolved?)
  {
    if events != [] {
      SuccessMeansExactlyOne(events[..|events| - 1]);
      StepKeeps(Run(events[..|events| - 1]).value, events[|events| - 1]);
    }
    var s := Run(events).value;
    forall id | id in s.queried
      ensures id in s.pending <==> id !in s.settled
      ensures id in s.settled && s.settled[id].Resolved? ==> ExactlyOne(s.settled[id].tabId, s.queried[id], s.replies[id])
      ensures forall tabId :: ExactlyOne(tabId, s.queried[id], s.replies[id]) <==> id in s.settled && s.settled[id] == Resolved(tabId)
      ensures TwoFound(s.replies[id]) <==> id in s.settled && s.settled[id] == Rejected(Ambiguous)
      ensures NoneFound(s.queried[id], s.replies[id]) <==> id in s.settled && s.settled[id].Rejected? && s.settled[id].reason.Unresolved?
    {
      assert Sound(ViewOf(s, id));
      if id in s.pending {
        OpenVerdict(s.pending[id], s.queried[id], s.replies[id], TimedOut);
      }
    }
  }
}
