/**
 What target resolution does for its callers: whom it asks, what each answer and each loss leads to,
 and which runtime is remembered for a target.
 */
module ResolutionEffects {
  import opened Common
  import opened TargetResolution

  /** The runtime still owes the request an answer: it was asked and has neither answered nor left. */
  ghost predicate Owes(s: Server, id: RequestId, r: RuntimeId) {
    id in s.pending && id in s.queried && id in s.replies && r in s.queried[id] && r !in s.replies[id]
  }

  lemma OwesIffAwaited(s: Server, id: RequestId, r: RuntimeId)
    requires Inv(s) && id in s.pending
    ensures Owes(s, id, r) <==> r in s.pending[id].awaiting
  {
    assert Sound(ViewOf(s, id));
  }

  /** A request asks exactly the runtimes with an open bound service worker, and starts without answers. */
  lemma AsksEveryReadyRuntime(s: Server, id: RequestId, targetId: string)
    requires Inv(s) && Enabled(s, Resolve(id, targetId))
    ensures var s' := Step(s, Resolve(id, targetId));
            && id in s'.pending && s'.pending[id].targetId == targetId && s'.replies[id] == map[]
            && forall r :: r in s'.queried[id] <==>
                 exists k :: k in s.peers && k in s.open && s.peers[k].role == ServiceWorker && s.peers[k].runtimeId == r
  {
    var s' := Step(s, Resolve(id, targetId));
    forall r ensures r in s'.queried[id] <==>
      exists k :: k in s.peers && k in s.open && s.peers[k].role == ServiceWorker && s.peers[k].runtimeId == r
    {
      if r in s'.queried[id] {
        assert RuntimePlaced(s.peers, s.runtimes, r);
        var k := s.runtimes[r].serviceWorker.value;
        assert k in s.peers && k in s.open && s.peers[k].role == ServiceWorker && s.peers[k].runtimeId == r;
      }
      if k :| k in s.peers && k in s.open && s.peers[k].role == ServiceWorker && s.peers[k].runtimeId == r {
        assert PeerPlaced(s.peers, s.runtimes, k);
      }
    }
  }

  /** What a request remembers of its runtimes once `r` has done `reply`. */
  ghost predicate Recorded(s: Server, s': Server, id: RequestId, r: RuntimeId, reply: Reply) {
    id in s.replies && s'.queried == s.queried && s'.replies == s.replies[id := s.replies[id][r := reply]]
  }

  /**
   How the answers so far end a request: two tabs are ambiguous, silence from all is unresolved with the
   last word on retrying, and one tab with no one left to ask is the answer, remembered for the target.
   */
  ghost predicate EndsAsCalledFor(s: Server, s': Server, id: RequestId, targetId: string, retryable: bool)
    requires id in s'.queried && id in s'.replies
  {
    var queried, replies := s'.queried[id], s'.replies[id];
    if TwoFound(replies) then
      id !in s'.pending && s'.settled == s.settled[id := Rejected(Ambiguous)] && s'.targetRuntimes == s.targetRuntimes
    else if replies.Keys != queried then
      id in s'.pending && s'.settled == s.settled && s'.targetRuntimes == s.targetRuntimes
    else if NoneFound(queried, replies) then
      id !in s'.pending && s'.settled == s.settled[id := Rejected(Unresolved(retryable))] && s'.targetRuntimes == s.targetRuntimes
    else
      && id !in s'.pending
      && exists r :: r in replies && replies[r].Found?
           && s'.settled == s.settled[id := Resolved(replies[r].tabId)] && s'.targetRuntimes == s.targetRuntimes[targetId := r]
  }

  lemma TwoFoundIffSecondHit(s: Server, id: RequestId, r: RuntimeId, reply: Reply)
    requires Inv(s) && Owes(s, id, r)
    ensures TwoFound(s.replies[id][r := reply]) <==> reply.Found? && |s.pending[id].resolved| == 1
  {
    assert Sound(ViewOf(s, id));
    var p, replies1 := s.pending[id], s.replies[id][r := reply];
    if reply.Found? && |p.resolved| == 1 {
      var first := p.resolved[0].runtimeId;
      assert first in replies1 && replies1[first].Found? && replies1[r].Found? && first != r;
    }
    if a, b :| a in replies1 && b in replies1 && a != b && replies1[a].Found? && replies1[b].Found? {
      if a != r {
        assert a in s.replies[id] && s.replies[id][a].Found?;
      }
      if b != r {
        assert b in s.replies[id] && s.replies[id][b].Found?;
      }
    }
  }

  /** Once everyone has answered with at most one tab, the first hit is that tab. */
  lemma LastAnswerEnds(s: Server, id: RequestId, r: RuntimeId, reply: Reply, resolved: seq<Hit>, retryable: bool)
    requires Inv(s) && Owes(s, id, r) && s.pending[id].awaiting - {r} == {}
    requires resolved == s.pending[id].resolved + if reply.Found? then [Hit(r, reply.tabId)] else []
    requires |resolved| <= 1
    ensures var s' := Conclude(Taken(s, id, r, reply, resolved), id, retryable);
            Recorded(s, s', id, r, reply) && EndsAsCalledFor(s, s', id, s.pending[id].targetId, retryable)
  {
    assert Sound(ViewOf(s, id));
    var p, replies1 := s.pending[id], s.replies[id][r := reply];
    TwoFoundIffSecondHit(s, id, r, reply);
    assert p.awaiting == {r};
    assert replies1.Keys == s.queried[id];
    if resolved == [] {
      assert forall q :: q in s.replies[id] ==> !s.replies[id][q].Found?;
    } else {
      var hit := resolved[0];
      assert hit.runtimeId in replies1 && replies1[hit.runtimeId] == Found(hit.tabId);
    }
  }

  lemma TakenGoesOn(s: Server, id: RequestId, r: RuntimeId, reply: Reply, resolved: seq<Hit>, retryable: bool)
    requires Inv(s) && Owes(s, id, r) && s.pending[id].awaiting - {r} != {}
    requires !(reply.Found? && |s.pending[id].resolved| == 1)
    ensures var s' := Taken(s, id, r, reply, resolved);
            Recorded(s, s', id, r, reply) && EndsAsCalledFor(s, s', id, s.pending[id].targetId, retryable)
  {
    assert Sound(ViewOf(s, id));
    TwoFoundIffSecondHit(s, id, r, reply);
    var q :| q in s.pending[id].awaiting - {r};
    assert q !in s.replies[id][r := reply].Keys;
  }

  /** An owed answer is recorded, and the request ends exactly when and as the answers then call for. */
  lemma OwedAnswerDecides(s: Server, socket: Socket, id: RequestId, targetId: string, answer: Answer)
    requires Inv(s) && Enabled(s, Reply(socket, id, targetId, answer))
    requires Owes(s, id, s.peers[socket].runtimeId) && targetId == s.pending[id].targetId
    ensures var r, s' := s.peers[socket].runtimeId, Step(s, Event.Reply(socket, id, targetId, answer));
            && Recorded(s, s', id, r, if answer.TargetResolved? then Found(answer.tabId) else Failed)
            && EndsAsCalledFor(s, s', id, targetId, answer.ResolveFailed? && answer.retryable)
  {
    var r := s.peers[socket].runtimeId;
    var reply := if answer.TargetResolved? then Found(answer.tabId) else Failed;
    OwesIffAwaited(s, id, r);
    NotAwaitedIsNotHit(s, id, r);
    ReplyUnfolds(s, r, id, targetId, answer);
    var resolved := s.pending[id].resolved + if reply.Found? then [Hit(r, reply.tabId)] else [];
    if answer.TargetResolved? && |s.pending[id].resolved| == 1 {
      TwoFoundIffSecondHit(s, id, r, reply);
    } else if s.pending[id].awaiting - {r} != {} {
      TakenGoesOn(s, id, r, reply, resolved, answer.ResolveFailed? && answer.retryable);
    } else {
      LastAnswerEnds(s, id, r, reply, resolved, answer.ResolveFailed? && answer.retryable);
    }
  }

  /** An answer about another target ends the request as mismatched; one nobody waits for changes nothing. */
  lemma OtherAnswers(s: Server, socket: Socket, id: RequestId, targetId: string, answer: Answer)
    requires Inv(s) && Enabled(s, Reply(socket, id, targetId, answer))
    ensures var r, s' := s.peers[socket].runtimeId, Step(s, Event.Reply(socket, id, targetId, answer));
            && (id in s.pending && targetId != s.pending[id].targetId ==>
                  s' == s.(pending := s.pending - {id}, settled := s.settled[id := Rejected(ResponseMismatch)]))
            && (id !in s.pending || (targetId == s.pending[id].targetId && !Owes(s, id, r)) ==> s' == s)
  {
    if id in s.pending {
      OwesIffAwaited(s, id, s.peers[socket].runtimeId);
    }
  }

  /** A runtime that leaves while it owes an answer counts as silent, and its silence may be the last word. */
  lemma OwedSilenceDecides(s: Server, id: RequestId, r: RuntimeId)
    requires Inv(s) && Owes(s, id, r)
    ensures var s' := DropFrom(s, id, r);
            Recorded(s, s', id, r, Disconnected) && EndsAsCalledFor(s, s', id, s.pending[id].targetId, true)
  {
    OwesIffAwaited(s, id, r);
    NotAwaitedIsNotHit(s, id, r);
    var resolved := s.pending[id].resolved;
    assert resolved + [] == resolved;
    if s.pending[id].awaiting - {r} != {} {
      TakenGoesOn(s, id, r, Disconnected, resolved, true);
    } else {
      LastAnswerEnds(s, id, r, Disconnected, resolved, true);
    }
  }

  // ------------------------------------------------------- losing a runtime

  ghost predicate SameFor(s: Server, s': Server, id: RequestId) {
    && (id in s.pending <==> id in s'.pending) && (id in s.pending ==> s'.pending[id] == s.pending[id])
    && (id in s.settled <==> id in s'.settled) && (id in s.settled ==> s'.settled[id] == s.settled[id])
    && (id in s.replies <==> id in s'.replies) && (id in s.replies ==> s'.replies[id] == s.replies[id])
  }

  /** The request counts `r` as lost, and if that was the last word it ends for good or for a retry. */
  ghost predicate LostFor(s: Server, s': Server, id: RequestId, r: RuntimeId)
    requires id in s.queried && id in s.replies
  {
    && id in s'.replies && s'.replies[id] == s.replies[id][r := Disconnected]
    && if s'.replies[id].Keys != s.queried[id] then id in s'.pending && id !in s'.settled
       else id !in s'.pending && id in s'.settled
            && if NoneFound(s.queried[id], s'.replies[id]) then s'.settled[id] == Rejected(Unresolved(true))
               else exists q :: q in s'.replies[id] && s'.replies[id][q].Found? && s'.settled[id] == Resolved(s'.replies[id][q].tabId)
  }

  lemma OneRequestLoses(s: Server, id: RequestId, r: RuntimeId)
    requires Inv(s) && Owes(s, id, r)
    ensures LostFor(s, DropFrom(s, id, r), id, r)
  {
    assert Sound(ViewOf(s, id));
    OwedSilenceDecides(s, id, r);
    TwoFoundIffSecondHit(s, id, r, Disconnected);
  }

  lemma UnowedKeeps(s: Server, id: RequestId, r: RuntimeId)
    requires Inv(s) && !Owes(s, id, r)
    ensures DropFrom(s, id, r) == s
  {
    if id in s.pending {
      OwesIffAwaited(s, id, r);
    }
  }

  lemma TakenTouchesOne(s: Server, id: RequestId, r: RuntimeId, reply: Reply, resolved: seq<Hit>, other: RequestId)
    requires id in s.pending && other != id
    ensures SameFor(s, Taken(s, id, r, reply, resolved), other)
  {
  }

  lemma ConcludeTouchesOne(s: Server, id: RequestId, retryable: bool, other: RequestId)
    requires id in s.pending && other != id
    ensures SameFor(s, Conclude(s, id, retryable), other)
  {
  }

  lemma DropUnfolds(s: Server, id: RequestId, r: RuntimeId)
    requires Inv(s) && Owes(s, id, r)
    ensures var s1 := Taken(s, id, r, Disconnected, s.pending[id].resolved);
            DropFrom(s, id, r) == if s.pending[id].awaiting - {r} != {} then s1 else Conclude(s1, id, true)
  {
    OwesIffAwaited(s, id, r);
    NotAwaitedIsNotHit(s, id, r);
  }

  lemma OthersKeep(s: Server, id: RequestId, r: RuntimeId, other: RequestId)
    requires Inv(s) && (other != id || !Owes(s, id, r))
    ensures SameFor(s, DropFrom(s, id, r), other)
  {
    if !Owes(s, id, r) {
      UnowedKeeps(s, id, r);
    } else {
      var s1 := Taken(s, id, r, Disconnected, s.pending[id].resolved);
      DropUnfolds(s, id, r);
      TakenTouchesOne(s, id, r, Disconnected, s.pending[id].resolved, other);
      ConcludeTouchesOne(s1, id, true, other);
    }
  }

  lemma DropKeepsInv(s: Server, id: RequestId, r: RuntimeId)
    requires Inv(s)
    ensures Inv(DropFrom(s, id, r)) && DropFrom(s, id, r).queried == s.queried
  {
    DropFromKeeps(s, id, r);
  }

  lemma {:induction false} EveryRequestLoses(s: Server, ids: seq<RequestId>, r: RuntimeId, id: RequestId)
    requires Inv(s)
    ensures id in ids && Owes(s, id, r) ==> LostFor(s, DropRuntime(s, ids, r), id, r)
    ensures !Owes(s, id, r) ==> SameFor(s, DropRuntime(s, ids, r), id)
    ensures id !in ids ==> SameFor(s, DropRuntime(s, ids, r), id)
    decreases |ids|
  {
    if ids != [] {
      var s1 := DropFrom(s, ids[0], r);
      DropKeepsInv(s, ids[0], r);
      EveryRequestLoses(s1, ids[1..], r, id);
      if id == ids[0] && Owes(s, id, r) {
        OneRequestLoses(s, id, r);
      } else {
        OthersKeep(s, ids[0], r, id);
      }
    }
  }

  /** Every pending request is on the list of requests made. */
  ghost predicate Listed(s: Server) {
    forall id :: id in s.pending ==> id in s.requested
  }

  lemma DropFromKeepsListed(s: Server, id: RequestId, r: RuntimeId)
    ensures DropFrom(s, id, r).pending.Keys <= s.pending.Keys && DropFrom(s, id, r).requested == s.requested
  {
  }

  lemma {:induction false} DropKeepsListed(s: Server, ids: seq<RequestId>, r: RuntimeId)
    ensures DropRuntime(s, ids, r).pending.Keys <= s.pending.Keys && DropRuntime(s, ids, r).requested == s.requested
    decreases |ids|
  {
    if ids != [] {
      DropFromKeepsListed(s, ids[0], r);
      DropKeepsListed(DropFrom(s, ids[0], r), ids[1..], r);
    }
  }

  lemma GoneKeepsListed(s: Server, socket: Socket)
    requires Listed(s)
    ensures Listed(GoneStep(s, socket))
  {
    if socket in s.peers && s.peers[socket].runtimeId in s.runtimes {
      var peer := s.peers[socket];
      var runtime := s.runtimes[peer.runtimeId];
      var freed := if Slot(runtime, peer.role) == Some(socket) then WithSlot(runtime, peer.role, None) else runtime;
      var s1 := s.(peers := s.peers - {socket},
                   runtimes := if freed.serviceWorker.None? && freed.media.None?
                               then s.runtimes - {peer.runtimeId} else s.runtimes[peer.runtimeId := freed]);
      DropKeepsListed(s1, s.requested, peer.runtimeId);
    }
  }

  lemma ConcludeShrinks(s: Server, id: RequestId, retryable: bool)
    requires id in s.pending
    ensures Conclude(s, id, retryable).pending.Keys <= s.pending.Keys && Conclude(s, id, retryable).requested == s.requested
  {
  }

  lemma ReplyKeepsListed(s: Server, r: RuntimeId, id: RequestId, targetId: string, answer: Answer)
    ensures ReplyStep(s, r, id, targetId, answer).pending.Keys <= s.pending.Keys
    ensures ReplyStep(s, r, id, targetId, answer).requested == s.requested
  {
    if id in s.pending {
      var p := s.pending[id];
      var resolved := if answer.TargetResolved? then Without(p.resolved, r) + [Hit(r, answer.tabId)] else p.resolved;
      var s1 := Note(s, id, r, if answer.TargetResolved? then Found(answer.tabId) else Failed)
                .(pending := s.pending[id := p.(awaiting := p.awaiting - {r}, resolved := resolved)]);
      assert s1.pending.Keys == s.pending.Keys && s1.requested == s.requested;
      ConcludeShrinks(s1, id, answer.ResolveFailed? && answer.retryable);
    }
  }

  lemma StepKeepsListed(s: Server, e: Event)
    requires Listed(s) && Enabled(s, e)
    ensures Listed(Step(s, e))
  {
    match e {
      case Gone(socket) => GoneKeepsListed(s, socket);
      case Reply(socket, id, targetId, answer) => ReplyKeepsListed(s, s.peers[socket].runtimeId, id, targetId, answer);
      case Resolve(id, targetId) => assert Step(s, e).requested == s.requested + [id];
      case Bind(_, _, _, _) =>
      case Open(_) =>
      case Lost(_) =>
      case TimerFires(_) =>
      case Shutdown =>
    }
  }

  lemma {:induction false} RequestsAreListed(events: seq<Event>)
    requires Run(events).Some?
    ensures Listed(Run(events).value)
  {
    if events != [] {
      RequestsAreListed(events[..|events| - 1]);
      StepKeepsListed(Run(events[..|events| - 1]).value, events[|events| - 1]);
    }
  }

  /** The bookkeeping of a lost service worker before its requests are told. */
  function Unbound(s: Server, socket: Socket): Server
    requires socket in s.peers && s.peers[socket].runtimeId in s.runtimes
  {
    var peer := s.peers[socket];
    var freed := WithSlot(s.runtimes[peer.runtimeId], peer.role, None);
    s.(peers := s.peers - {socket},
       runtimes := if freed.serviceWorker.None? && freed.media.None? then s.runtimes - {peer.runtimeId} else s.runtimes[peer.runtimeId := freed])
  }

  /**
   In any run, when a bound service worker is lost every request its runtime still owed an answer counts
   it as lost, no other request is touched, and no target is remembered for the runtime any more.
   */
  lemma LossReachesEveryRequest(events: seq<Event>, socket: Socket, id: RequestId)
    requires Run(events).Some? && socket in Run(events).value.peers && Run(events).value.peers[socket].role == ServiceWorker
    ensures var s := Run(events).value; var r, s' := s.peers[socket].runtimeId, Step(s, Gone(socket));
            && (Owes(s, id, r) ==> LostFor(s, s', id, r)) && (!Owes(s, id, r) ==> SameFor(s, s', id))
            && s'.peers == s.peers - {socket}
            && forall t :: t in s'.targetRuntimes ==> s'.targetRuntimes[t] != r
  {
    SuccessMeansExactlyOne(events);
    RequestsAreListed(events);
    var s := Run(events).value;
    var r := s.peers[socket].runtimeId;
    assert PeerPlaced(s.peers, s.runtimes, socket);
    SlotsAfterGone(s.peers, s.runtimes, socket);
    var s1 := Unbound(s, socket);
    SameRequests(s, s1);
    EveryRequestLoses(s1, s.requested, r, id);
    DropRuntimeKeeps(s1, s.requested, r);
    assert Owes(s1, id, r) <==> Owes(s, id, r);
    var s2 := DropRuntime(s1, s.requested, r);
    assert Step(s, Gone(socket)) == s2.(targetRuntimes := map t | t in s2.targetRuntimes && s2.targetRuntimes[t] != r :: s2.targetRuntimes[t]);
  }

  /** A lost media socket leaves every request alone. */
  lemma MediaLossTouchesNoRequest(s: Server, socket: Socket, id: RequestId)
    requires Inv(s) && (socket !in s.peers || s.peers[socket].role == Media)
    ensures var s' := Step(s, Gone(socket));
            SameFor(s, s', id) && s'.peers == s.peers - {socket} && s'.targetRuntimes == s.targetRuntimes
  {
    if socket !in s.peers {
      assert s.peers - {socket} == s.peers;
    }
  }

  // -------------------------------------------------------- other listeners

  /** A pending request whose time is over is told so and forgotten; a shutdown tells all of them. */
  lemma TimeAndShutdownEnd(s: Server, id: RequestId)
    requires id in s.pending
    ensures Step(s, TimerFires(id)) == s.(pending := s.pending - {id}, settled := s.settled[id := Rejected(TimedOut)])
    ensures var s' := Step(s, Shutdown); s'.pending == map[] && id in s'.settled && s'.settled[id] == Rejected(ServerClosed)
  {
  }

  /** A runtime that changes how it is identified is turned away; any other socket takes its role's place and closes the one it displaces. */
  lemma BindTakesThePlace(s: Server, socket: Socket, role: Role, r: RuntimeId, advertised: bool)
    requires Inv(s) && Enabled(s, Bind(socket, role, r, advertised))
    ensures var s' := Step(s, Bind(socket, role, r, advertised));
            if r in s.runtimes && s.runtimes[r].advertised != advertised
            then s' == s.(open := s.open - {socket})
            else
              && socket in s'.peers && s'.peers[socket] == Peer(role, r, advertised)
              && (forall k :: k in s.peers && s.peers[k].role == role && s.peers[k].runtimeId == r ==> k !in s'.peers && k !in s'.open)
              && (forall k :: k in s.peers && !(s.peers[k].role == role && s.peers[k].runtimeId == r) ==>
                    k in s'.peers && s'.peers[k] == s.peers[k] && (k in s'.open <==> k in s.open))
              && s'.pending == s.pending && s'.settled == s.settled
  {
    BindKeeps(s, socket, role, r, advertised);
    forall k | k in s.peers ensures PeerPlaced(s.peers, s.runtimes, k) {
      assert PeerPlaced(s.peers, s.runtimes, k);
    }
    if r in s.runtimes {
      assert RuntimePlaced(s.peers, s.runtimes, r);
    }
  }
}
