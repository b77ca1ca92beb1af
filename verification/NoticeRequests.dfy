/**
 Correlated user decisions: at most four pending, a sliding limit on admissions, and exactly one
 settlement for every request that was handed to the channel.
 */
module NoticeRequests {
  import opened Common

  type RequestId = string

  datatype Reason =
    | Response | Expired | Cancelled | ConnectionLost | ViewerReplaced | CapabilityRevoked | SessionClosed

  /** An entry of the pending table, which iterates in insertion order. */
  datatype PendingNotice = PendingNotice(id: RequestId, buttons: seq<string>, expiresAt: int)

  /** How a request's promise ended: with a result, or with the failure of the send. */
  datatype Settlement =
    | Settled(id: RequestId, button: Option<string>, reason: Reason)
    | Rejected(id: RequestId)

  datatype Cancellation = Cancellation(id: RequestId, reason: Reason)

  datatype RequestError = MessageInvalid | LimitReached

  /** What the caller of `request` gets at once. */
  datatype RequestOutcome = Refused(error: RequestError) | AlreadyAborted | Handed

  const MAX_PENDING := 4
  const MAX_RECENT := 10
  const RATE_WINDOW_MS := 60_000

  /**
   `pending` and `recent` are the object's own fields. The rest records its effects: the times of
   admitted requests, the buttons of registered ones, settled promises and attempted cancels.
   */
  datatype Notices = Notices(
    pending: seq<PendingNotice>,
    recent: seq<int>,
    admitted: seq<int>,
    registered: seq<RequestId>,
    offered: map<RequestId, seq<string>>,
    settlements: seq<Settlement>,
    cancels: seq<Cancellation>,
    clock: int)

  const EMPTY := Notices([], [], [], [], map[], [], [], 0)

  /** `valid` says that the payload passes the protocol's schema, `sends` that the channel takes it. */
  datatype Event =
    | Request(now: int, id: RequestId, buttons: seq<string>, timeoutMs: int, valid: bool, aborted: bool, sends: bool)
    | Respond(now: int, id: RequestId, button: Option<string>)
    | TimerFires(id: RequestId)
    | SignalAborts(id: RequestId)
    | CancelAll(reason: Reason)

  function Ids(pending: seq<PendingNotice>): (ids: seq<RequestId>)
    ensures |ids| == |pending| && forall i :: 0 <= i < |ids| ==> ids[i] == pending[i].id
  {
    seq(|pending|, i requires 0 <= i < |pending| => pending[i].id)
  }

  /** Index of the first pending entry of this identifier, or the length of the table. */
  function Find(pending: seq<PendingNotice>, id: RequestId): (i: nat)
    ensures i <= |pending|
    ensures i < |pending| ==> pending[i].id == id
    ensures forall j :: 0 <= j < i ==> pending[j].id != id
  {
    if pending == [] then 0
    else if pending[0].id == id then 0
    else
      var i := Find(pending[1..], id);
      assert forall j :: 0 < j < 1 + i ==> pending[j] == pending[1..][j - 1];
      1 + i
  }

  /** Time passes monotonically, request identifiers are fresh, only pending requests have timers. */
  predicate Enabled(s: Notices, e: Event) {
    match e
    case Request(now, id, _, _, _, _, _) => s.clock <= now && id !in s.registered
    case Respond(now, _, _) => s.clock <= now
    case TimerFires(id) => Find(s.pending, id) < |s.pending|
    case SignalAborts(id) => Find(s.pending, id) < |s.pending|
    case CancelAll(reason) => reason != Response
  }

  function Finish(s: Notices, id: RequestId, button: Option<string>, reason: Reason): Notices {
    var i := Find(s.pending, id);
    if i == |s.pending| then s
    else s.(
      pending := s.pending[..i] + s.pending[i + 1..],
      cancels := if reason == Response then s.cancels else s.cancels + [Cancellation(id, reason)],
      settlements := s.settlements + [Settled(id, button, reason)])
  }

  /** Settles the pending requests of `ids` in order. */
  function FinishAll(s: Notices, ids: seq<RequestId>, reason: Reason): Notices
    decreases |ids|
  {
    if ids == [] then s else FinishAll(Finish(s, ids[0], None, reason), ids[1..], reason)
  }

  lemma FinishAllHead(s: Notices, ids: seq<RequestId>, i: nat, reason: Reason)
    requires i < |ids|
    ensures FinishAll(s, ids[i..], reason) == FinishAll(Finish(s, ids[i], None, reason), ids[i + 1..], reason)
  {
    assert ids[i..][1..] == ids[i + 1..];
  }

  function KeepRecent(times: seq<int>, now: int): seq<int> {
    if times == [] then []
    else if times[0] > now - RATE_WINDOW_MS then [times[0]] + KeepRecent(times[1..], now)
    else KeepRecent(times[1..], now)
  }

  predicate Distinct(buttons: seq<string>) {
    forall i, j :: 0 <= i < j < |buttons| ==> buttons[i] != buttons[j]
  }

  function Outcome(s: Notices, e: Event): RequestOutcome
    requires e.Request?
  {
    if e.timeoutMs < 1 || e.timeoutMs > 120_000 || !e.valid || !Distinct(e.buttons) then Refused(MessageInvalid)
    else if e.aborted then AlreadyAborted
    else if |s.pending| >= MAX_PENDING || |KeepRecent(s.recent, e.now)| >= MAX_RECENT then Refused(LimitReached)
    else Handed
  }

  function Register(s: Notices, e: Event): Notices
    requires e.Request?
  {
    s.(recent := KeepRecent(s.recent, e.now) + [e.now],
       admitted := s.admitted + [e.now],
       registered := s.registered + [e.id],
       offered := s.offered[e.id := e.buttons],
       pending := s.pending + [PendingNotice(e.id, e.buttons, e.now + e.timeoutMs)])
  }

  function RequestStep(s: Notices, e: Event): Notices
    requires e.Request?
  {
    var outcome := Outcome(s, e);
    if outcome.AlreadyAborted? || outcome == Refused(MessageInvalid) then s
    else if outcome.Refused? then s.(recent := KeepRecent(s.recent, e.now))
    else if e.sends then Register(s, e)
    else Register(s, e).(pending := s.pending, settlements := s.settlements + [Rejected(e.id)])
  }

  /** The answer of `respond`: accepted, ignored, or refused for naming a button not offered. */
  function RespondAnswer(s: Notices, now: int, id: RequestId, button: Option<string>): Result<bool, RequestError> {
    var i := Find(s.pending, id);
    if i == |s.pending| || s.pending[i].expiresAt <= now then Ok(false)
    else if button.Some? && button.value !in s.pending[i].buttons then Err(MessageInvalid)
    else Ok(true)
  }

  function RespondStep(s: Notices, now: int, id: RequestId, button: Option<string>): Notices {
    var i := Find(s.pending, id);
    var answer := RespondAnswer(s, now, id, button);
    if i == |s.pending| || answer.Err? then s
    else if answer.value then Finish(s, id, button, Response)
    else Finish(s, id, None, Expired)
  }

  function Step(s: Notices, e: Event): Notices
    requires Enabled(s, e)
  {
    match e
    case Request(now, _, _, _, _, _, _) => RequestStep(s, e).(clock := now)
    case Respond(now, id, button) => RespondStep(s, now, id, button).(clock := now)
    case TimerFires(id) => Finish(s, id, None, Expired)
    case SignalAborts(id) => Finish(s, id, None, Cancelled)
    case CancelAll(reason) => FinishAll(s, Ids(s.pending), reason)
  }

  // ----------------------------------------------------------------- class

  class NoticeRequests {
    var pending: seq<PendingNotice>
    var recentRequests: seq<int>
    var admitted: seq<int>
    var registered: seq<RequestId>
    var offered: map<RequestId, seq<string>>
    var settlements: seq<Settlement>
    var cancels: seq<Cancellation>
    var clock: int

    function View(): Notices
      reads this
    {
      Notices(pending, recentRequests, admitted, registered, offered, settlements, cancels, clock)
    }

    constructor ()
      ensures View() == EMPTY
    {
      pending, recentRequests, admitted, registered := [], [], [], [];
      offered, settlements, cancels, clock := map[], [], [], 0;
    }

    method RequestNotice(now: int, id: RequestId, buttons: seq<string>, timeoutMs: int, valid: bool, aborted: bool, sends: bool)
      returns (outcome: RequestOutcome)
      requires Enabled(View(), Request(now, id, buttons, timeoutMs, valid, aborted, sends))
      modifies this
      ensures outcome == Outcome(old(View()), Request(now, id, buttons, timeoutMs, valid, aborted, sends))
      ensures View() == Step(old(View()), Request(now, id, buttons, timeoutMs, valid, aborted, sends))
    {
      clock := now;
      if timeoutMs < 1 || timeoutMs > 120_000 {
        return Refused(MessageInvalid);
      }
      if !valid || !Distinct(buttons) {
        return Refused(MessageInvalid);
      }
      if aborted {
        return AlreadyAborted;
      }
      recentRequests := KeepRecent(recentRequests, now);
      if |pending| >= MAX_PENDING || |recentRequests| >= MAX_RECENT {
        return Refused(LimitReached);
      }
      recentRequests := recentRequests + [now];
      admitted := admitted + [now];
      ghost var before := pending;
      pending := pending + [PendingNotice(id, buttons, now + timeoutMs)];
      registered := registered + [id];
      offered := offered[id := buttons];
      if !sends {
        pending := pending[..|pending| - 1];
        assert pending == before;
        settlements := settlements + [Rejected(id)];
      }
      return Handed;
    }

    method RespondTo(now: int, id: RequestId, button: Option<string>) returns (answer: Result<bool, RequestError>)
      requires clock <= now
      modifies this
      ensures answer == RespondAnswer(old(View()), now, id, button)
      ensures View() == Step(old(View()), Respond(now, id, button))
    {
      clock := now;
      var i := Find(pending, id);
      if i == |pending| {
        return Ok(false);
      }
      if pending[i].expiresAt <= now {
        FinishRequest(id, None, Expired);
        return Ok(false);
      }
      if button.Some? && button.value !in pending[i].buttons {
        return Err(MessageInvalid);
      }
      FinishRequest(id, button, Response);
      return Ok(true);
    }

    method CancelEvery(reason: Reason)
      requires reason != Response
      modifies this
      ensures View() == Step(old(View()), CancelAll(reason))
    {
      var ids := Ids(pending);
      ghost var left, done := View(), Step(View(), CancelAll(reason));
      assert ids[0..] == ids;
      for i := 0 to |ids|
        invariant View() == left
        invariant FinishAll(left, ids[i..], reason) == done
      {
        FinishAllHead(left, ids, i, reason);
        FinishRequest(ids[i], None, reason);
        left := Finish(left, ids[i], None, reason);
      }
      assert ids[|ids|..] == [];
    }

    /** The private `#finish`; also the body of the timer and of the abort listener. */
    method FinishRequest(id: RequestId, button: Option<string>, reason: Reason)
      modifies this
      ensures View() == Finish(old(View()), id, button, reason)
    {
      var i := Find(pending, id);
      if i == |pending| {
        return;
      }
      pending := pending[..i] + pending[i + 1..];
      if reason != Response {
        cancels := cancels + [Cancellation(id, reason)];
      }
      settlements := settlements + [Settled(id, button, reason)];
    }
  }

  // ------------------------------------------------------------------ runs

  ghost predicate IsPending(s: Notices, id: RequestId) {
    exists i :: 0 <= i < |s.pending| && s.pending[i].id == id
  }

  ghost predicate IsSettled(s: Notices, id: RequestId) {
    exists i :: 0 <= i < |s.settlements| && s.settlements[i].id == id
  }

  /** The cancels owed for the settlements so far: one for each result that is not a response. */
  function CancelsOwed(settlements: seq<Settlement>): seq<Cancellation> {
    if settlements == [] then []
    else
      var last := settlements[|settlements| - 1];
      CancelsOwed(settlements[..|settlements| - 1])
      + if last.Settled? && last.reason != Response then [Cancellation(last.id, last.reason)] else []
  }

  ghost predicate DistinctPending(pending: seq<PendingNotice>) {
    forall i, j :: 0 <= i < j < |pending| ==> pending[i].id != pending[j].id
  }

  ghost predicate DistinctSettlements(settlements: seq<Settlement>) {
    forall i, j :: 0 <= i < j < |settlements| ==> settlements[i].id != settlements[j].id
  }

  ghost predicate Apart(pending: seq<PendingNotice>, settlements: seq<Settlement>) {
    forall i, j :: 0 <= i < |pending| && 0 <= j < |settlements| ==> pending[i].id != settlements[j].id
  }

  /** Registered requests are distinct, and each is either pending or settled exactly once. */
  ghost predicate Accounted(s: Notices) {
    && (forall i, j :: 0 <= i < j < |s.registered| ==> s.registered[i] != s.registered[j])
    && DistinctPending(s.pending) && DistinctSettlements(s.settlements) && Apart(s.pending, s.settlements)
    && |s.pending| <= MAX_PENDING
    && (forall i :: 0 <= i < |s.pending| ==> s.pending[i].id in s.offered && s.offered[s.pending[i].id] == s.pending[i].buttons)
    && (forall id :: id in s.offered ==> id in s.registered)
  }

  /** Buttons appear only in responses that name an offered one; cancels match the other outcomes. */
  ghost predicate Honest(s: Notices) {
    && (forall i :: 0 <= i < |s.settlements| && s.settlements[i].Settled? && s.settlements[i].button.Some? ==>
          && s.settlements[i].reason == Response
          && s.settlements[i].id in s.offered && s.settlements[i].button.value in s.offered[s.settlements[i].id])
    && s.cancels == CancelsOwed(s.settlements)
  }

  /** Exactly the registered requests are pending or settled. */
  ghost predicate Complete(s: Notices) {
    forall id :: id in s.registered <==> IsPending(s, id) || IsSettled(s, id)
  }

  /** The recent times are the admissions younger than the window, and admissions are never denser. */
  ghost predicate RateLimited(s: Notices) {
    && Sorted(s.admitted)
    && (forall i :: 0 <= i < |s.admitted| ==> s.admitted[i] <= s.clock)
    && OldBut(s.admitted, |s.recent|, s.clock) && IsTail(s.recent, s.admitted)
    && SparseTimes(s.admitted)
  }

  /** Any eleven consecutive admissions span the whole window, so no window holds more than ten. */
  ghost predicate SparseTimes(times: seq<int>) {
    forall i, j :: 0 <= i && i + MAX_RECENT <= j < |times| ==> times[j] - times[i] >= RATE_WINDOW_MS
  }

  ghost predicate Inv(s: Notices) {
    Accounted(s) && Complete(s) && Honest(s) && RateLimited(s)
  }

  /** Moving one pending request to the settlements keeps all of them apart. */
  lemma MoveKeepsApart(pending: seq<PendingNotice>, settlements: seq<Settlement>, i: nat, last: Settlement)
    requires i < |pending| && last.id == pending[i].id
    requires DistinctPending(pending) && DistinctSettlements(settlements) && Apart(pending, settlements)
    ensures DistinctPending(pending[..i] + pending[i + 1..]) && DistinctSettlements(settlements + [last])
    ensures Apart(pending[..i] + pending[i + 1..], settlements + [last])
  {
    var rest := pending[..i] + pending[i + 1..];
    assert forall j :: 0 <= j < |rest| ==> rest[j] == pending[if j < i then j else j + 1];
  }

  lemma FinishKeepsAccounts(s: Notices, id: RequestId, button: Option<string>, reason: Reason)
    requires Accounted(s)
    ensures Accounted(Finish(s, id, button, reason))
  {
    var i := Find(s.pending, id);
    if i < |s.pending| {
      var rest := s.pending[..i] + s.pending[i + 1..];
      MoveKeepsApart(s.pending, s.settlements, i, Settled(id, button, reason));
      assert forall j :: 0 <= j < |rest| ==> rest[j] == s.pending[if j < i then j else j + 1];
    }
  }

  lemma FinishKeepsComplete(s: Notices, id: RequestId, button: Option<string>, reason: Reason)
    requires Complete(s)
    ensures Complete(Finish(s, id, button, reason))
  {
    var i := Find(s.pending, id);
    var s' := Finish(s, id, button, reason);
    if i < |s.pending| {
      forall other ensures other in s'.registered <==> IsPending(s', other) || IsSettled(s', other) {
        PendingMoves(s, i, s', other);
      }
    }
  }

  lemma PendingMoves(s: Notices, i: nat, s': Notices, id: RequestId)
    requires i < |s.pending|
    requires s'.pending == s.pending[..i] + s.pending[i + 1..]
    requires |s'.settlements| == |s.settlements| + 1 && s'.settlements[..|s.settlements|] == s.settlements
    requires s'.settlements[|s.settlements|].id == s.pending[i].id
    ensures IsPending(s, id) || IsSettled(s, id) <==> IsPending(s', id) || IsSettled(s', id)
  {
    if k :| 0 <= k < |s.pending| && s.pending[k].id == id {
      if k < i {
        assert s'.pending[k].id == id;
      } else if k > i {
        assert s'.pending[k - 1].id == id;
      } else {
        assert s'.settlements[|s.settlements|].id == id;
      }
    }
    if k :| 0 <= k < |s.settlements| && s.settlements[k].id == id {
      assert s'.settlements[k].id == id;
    }
    if k :| 0 <= k < |s'.pending| && s'.pending[k].id == id {
      assert s.pending[if k < i then k else k + 1].id == id;
    }
    if k :| 0 <= k < |s'.settlements| && s'.settlements[k].id == id {
      if k < |s.settlements| {
        assert s.settlements[k].id == id;
      } else {
        assert s.pending[i].id == id;
      }
    }
  }

  lemma SettleIsHonest(s: Notices, last: Settlement, cancels: seq<Cancellation>)
    requires Honest(s)
    requires last.Settled? && last.button.Some? ==>
               last.reason == Response && last.id in s.offered && last.button.value in s.offered[last.id]
    requires cancels == s.cancels + if last.Settled? && last.reason != Response then [Cancellation(last.id, last.reason)] else []
    ensures Honest(s.(settlements := s.settlements + [last], cancels := cancels))
  {
    var all := s.settlements + [last];
    assert all[..|all| - 1] == s.settlements;
  }

  lemma FinishKeepsHonest(s: Notices, id: RequestId, button: Option<string>, reason: Reason)
    requires Accounted(s) && Honest(s)
    requires button.Some? ==> reason == Response
    requires button.Some? && Find(s.pending, id) < |s.pending| ==> button.value in s.pending[Find(s.pending, id)].buttons
    ensures Honest(Finish(s, id, button, reason))
  {
    if Find(s.pending, id) < |s.pending| {
      var cancels := s.cancels + if reason != Response then [Cancellation(id, reason)] else [];
      SettleIsHonest(s, Settled(id, button, reason), cancels);
      assert Finish(s, id, button, reason).cancels == cancels;
    }
  }

  lemma FinishKeeps(s: Notices, id: RequestId, button: Option<string>, reason: Reason)
    requires Inv(s)
    requires button.Some? ==> reason == Response
    requires button.Some? && Find(s.pending, id) < |s.pending| ==> button.value in s.pending[Find(s.pending, id)].buttons
    ensures Inv(Finish(s, id, button, reason))
  {
    FinishKeepsAccounts(s, id, button, reason);
    FinishKeepsComplete(s, id, button, reason);
    FinishKeepsHonest(s, id, button, reason);
    SameRate(s, Finish(s, id, button, reason));
  }

  lemma {:induction false} FinishAllKeeps(s: Notices, ids: seq<RequestId>, reason: Reason)
    requires Inv(s) && reason != Response
    ensures Inv(FinishAll(s, ids, reason))
    decreases |ids|
  {
    if ids != [] {
      FinishKeeps(s, ids[0], None, reason);
      FinishAllKeeps(Finish(s, ids[0], None, reason), ids[1..], reason);
    }
  }

  predicate Sorted(times: seq<int>) {
    forall i, j :: 0 <= i < j < |times| ==> times[i] <= times[j]
  }

  /** The last `k` times are the recent ones. */
  predicate RecentFrom(times: seq<int>, now: int, k: nat) {
    && k <= |times|
    && (forall i :: 0 <= i < |times| - k ==> times[i] <= now - RATE_WINDOW_MS)
    && (forall i :: |times| - k <= i < |times| ==> times[i] > now - RATE_WINDOW_MS)
  }

  ghost predicate IsTail(tail: seq<int>, times: seq<int>) {
    |tail| <= |times| && forall i {:trigger tail[i]} :: 0 <= i < |tail| ==> tail[i] == times[|times| - |tail| + i]
  }

  lemma RecentFromGrows(times: seq<int>, now: int, k: nat)
    requires times != [] && Sorted(times) && RecentFrom(times[1..], now, k)
    ensures times[0] > now - RATE_WINDOW_MS ==> k == |times| - 1 && RecentFrom(times, now, k + 1)
    ensures times[0] <= now - RATE_WINDOW_MS ==> RecentFrom(times, now, k)
  {
    var rest := times[1..];
    assert forall i :: 0 <= i < |rest| ==> rest[i] == times[i + 1] >= times[0];
    assert forall i :: 0 < i < |times| ==> times[i] == rest[i - 1];
    assert k < |rest| ==> rest[0] <= now - RATE_WINDOW_MS;
  }

  lemma {:induction false} KeepRecentIsSuffix(times: seq<int>, now: int)
    requires Sorted(times)
    ensures RecentFrom(times, now, |KeepRecent(times, now)|)
    ensures IsTail(KeepRecent(times, now), times)
  {
    if times != [] {
      assert Sorted(times[1..]);
      KeepRecentIsSuffix(times[1..], now);
      RecentFromGrows(times, now, |KeepRecent(times[1..], now)|);
    }
  }

  lemma TailOfTail(k: seq<int>, m: seq<int>, times: seq<int>)
    requires IsTail(k, m) && IsTail(m, times)
    ensures IsTail(k, times)
  {
    forall i | 0 <= i < |k| ensures k[i] == times[|times| - |k| + i] {
      assert m[|m| - |k| + i] == times[|times| - |m| + (|m| - |k| + i)];
    }
  }

  lemma SortedTail(tail: seq<int>, times: seq<int>)
    requires Sorted(times) && IsTail(tail, times)
    ensures Sorted(tail)
  {
  }

  /** Every time but the last `k` has left the window. */
  ghost predicate OldBut(times: seq<int>, k: nat, now: int) {
    k <= |times| && forall i :: 0 <= i < |times| - k ==> times[i] <= now - RATE_WINDOW_MS
  }

  lemma OldGrows(times: seq<int>, tail: seq<int>, k: nat, clock: int, now: int)
    requires OldBut(times, |tail|, clock) && clock <= now && IsTail(tail, times) && RecentFrom(tail, now, k)
    ensures OldBut(times, k, now)
  {
    forall i | 0 <= i < |times| - k ensures times[i] <= now - RATE_WINDOW_MS {
      if i >= |times| - |tail| {
        assert tail[i - (|times| - |tail|)] == times[i];
      }
    }
  }

  lemma FilterKeepsRate(s: Notices, now: int)
    requires RateLimited(s) && s.clock <= now
    ensures RateLimited(s.(recent := KeepRecent(s.recent, now), clock := now))
  {
    SortedTail(s.recent, s.admitted);
    KeepRecentIsSuffix(s.recent, now);
    TailOfTail(KeepRecent(s.recent, now), s.recent, s.admitted);
    OldGrows(s.admitted, s.recent, |KeepRecent(s.recent, now)|, s.clock, now);
  }

  lemma AdmitKeepsRate(s: Notices, now: int)
    requires RateLimited(s) && s.clock == now && |s.recent| < MAX_RECENT
    ensures RateLimited(s.(recent := s.recent + [now], admitted := s.admitted + [now]))
  {
    var times := s.admitted + [now];
    forall i, j | 0 <= i && i + MAX_RECENT <= j < |times| ensures times[j] - times[i] >= RATE_WINDOW_MS {
      if j == |s.admitted| {
        assert i < |s.admitted| - |s.recent|;
      }
    }
  }

  lemma RegisterKeepsHonest(s: Notices, e: Event)
    requires Complete(s) && Accounted(s) && Honest(s) && e.Request? && Enabled(s, e) && Outcome(s, e).Handed?
    ensures Honest(RequestStep(s, e))
  {
    var base := Register(s, e).(pending := s.pending);
    forall id | id in s.offered ensures id in base.offered && base.offered[id] == s.offered[id] {
      assert id in s.registered;
    }
    assert Honest(base);
    if !e.sends {
      SettleIsHonest(base, Rejected(e.id), s.cancels);
    }
  }

  lemma FreshId(s: Notices, id: RequestId)
    requires Complete(s) && id !in s.registered
    ensures forall i :: 0 <= i < |s.pending| ==> s.pending[i].id != id
    ensures forall i :: 0 <= i < |s.settlements| ==> s.settlements[i].id != id
  {
    assert !IsPending(s, id) && !IsSettled(s, id);
  }

  lemma RegisterKeepsAccounts(s: Notices, e: Event)
    requires Complete(s) && Accounted(s) && e.Request? && Enabled(s, e) && Outcome(s, e).Handed?
    ensures Accounted(RequestStep(s, e))
  {
    FreshId(s, e.id);
  }

  lemma RegisterKeepsComplete(s: Notices, e: Event)
    requires Complete(s) && e.Request? && Enabled(s, e) && Outcome(s, e).Handed?
    ensures Complete(RequestStep(s, e))
  {
    var s' := RequestStep(s, e);
    if e.sends {
      assert s'.pending[|s.pending|].id == e.id;
    } else {
      assert s'.settlements[|s.settlements|].id == e.id;
    }
    forall id ensures IsPending(s', id) || IsSettled(s', id) <==> id == e.id || IsPending(s, id) || IsSettled(s, id) {
      if i :| 0 <= i < |s.pending| && s.pending[i].id == id {
        assert s'.pending[i].id == id;
      }
      if i :| 0 <= i < |s.settlements| && s.settlements[i].id == id {
        assert s'.settlements[i].id == id;
      }
    }
  }

  lemma RequestKeeps(s: Notices, e: Event)
    requires Inv(s) && e.Request? && Enabled(s, e)
    ensures Inv(Step(s, e))
  {
    RequestKeepsRate(s, e);
    if Outcome(s, e).Handed? {
      RegisterKeepsAccounts(s, e);
      RegisterKeepsComplete(s, e);
      RegisterKeepsHonest(s, e);
    } else {
      SameRest(s, RequestStep(s, e));
    }
    SameRest(RequestStep(s, e), Step(s, e));
  }

  lemma RequestKeepsRate(s: Notices, e: Event)
    requires RateLimited(s) && e.Request? && Enabled(s, e)
    ensures RateLimited(Step(s, e))
  {
    FilterKeepsRate(s, e.now);
    ClockKeepsRate(s, e.now);
    var filtered := s.(recent := KeepRecent(s.recent, e.now), clock := e.now);
    var s', outcome := Step(s, e), Outcome(s, e);
    if outcome.Handed? {
      AdmitKeepsRate(filtered, e.now);
      SameRate(filtered.(recent := filtered.recent + [e.now], admitted := s.admitted + [e.now]), s');
    } else if outcome == Refused(LimitReached) {
      SameRate(filtered, s');
    } else {
      SameRate(s.(clock := e.now), s');
    }
  }

  lemma SameRate(s: Notices, s': Notices)
    requires RateLimited(s) && s'.recent == s.recent && s'.admitted == s.admitted && s'.clock == s.clock
    ensures RateLimited(s')
  {
  }

  lemma SameRest(s: Notices, s': Notices)
    requires Accounted(s) && Complete(s) && Honest(s) && s' == s.(recent := s'.recent, clock := s'.clock)
    ensures Accounted(s') && Complete(s') && Honest(s')
  {
    assert forall id :: IsPending(s, id) == IsPending(s', id) && IsSettled(s, id) == IsSettled(s', id);
  }

  lemma ClockKeepsRate(s: Notices, now: int)
    requires RateLimited(s) && s.clock <= now
    ensures RateLimited(s.(clock := now))
  {
  }

  lemma RespondKeeps(s: Notices, now: int, id: RequestId, button: Option<string>)
    requires Inv(s)
    ensures Inv(RespondStep(s, now, id, button))
  {
    var answer := RespondAnswer(s, now, id, button);
    if answer == Ok(true) {
      FinishKeeps(s, id, button, Response);
    } else if answer == Ok(false) {
      FinishKeeps(s, id, None, Expired);
    }
  }

  /** Every step keeps the limits, the accounting and the honesty of the results. */
  lemma StepKeeps(s: Notices, e: Event)
    requires Inv(s) && Enabled(s, e)
    ensures Inv(Step(s, e))
  {
    match e {
      case Request(_, _, _, _, _, _, _) => RequestKeeps(s, e);
      case Respond(now, id, button) =>
        RespondKeeps(s, now, id, button);
        ClockKeepsRate(RespondStep(s, now, id, button), now);
        SameRest(RespondStep(s, now, id, button), Step(s, e));
      case TimerFires(id) => FinishKeeps(s, id, None, Expired);
      case SignalAborts(id) => FinishKeeps(s, id, None, Cancelled);
      case CancelAll(reason) => FinishAllKeeps(s, Ids(s.pending), reason);
    }
  }

  function Run(events: seq<Event>): Option<Notices> {
    if events == [] then Some(EMPTY)
    else
      var before := Run(events[..|events| - 1]);
      if before.Some? && Enabled(before.value, events[|events| - 1])
      then Some(Step(before.value, events[|events| - 1])) else None
  }

  /** The invariant holds over all orders of requests, responses, expiries, aborts and cancel-alls. */
  lemma {:induction false} EveryRunKeepsInv(events: seq<Event>)
    requires Run(events).Some?
    ensures Inv(Run(events).value)
  {
    if events != [] {
      EveryRunKeepsInv(events[..|events| - 1]);
      StepKeeps(Run(events[..|events| - 1]).value, events[|events| - 1]);
    }
  }

  /** After any run a registered request is pending and unsettled, or settled at exactly one place. */
  lemma SettlesExactlyOnce(events: seq<Event>, id: RequestId)
    requires Run(events).Some? && id in Run(events).value.registered
    ensures var s := Run(events).value;
            && (IsPending(s, id) <==> !IsSettled(s, id))
            && forall i, j ::
                 (0 <= i < |s.settlements| && 0 <= j < |s.settlements| && s.settlements[i].id == id && s.settlements[j].id == id)
                 ==> i == j
  {
    EveryRunKeepsInv(events);
  }

  lemma SparseMeansFew(times: seq<int>, from: int, lo: nat, hi: nat)
    requires SparseTimes(times) && lo <= hi <= |times|
    requires forall i :: lo <= i < hi ==> from <= times[i] < from + RATE_WINDOW_MS
    ensures hi - lo <= MAX_RECENT
  {
    var j := lo + MAX_RECENT;
    if j < |times| {
      assert times[j] - times[lo] >= RATE_WINDOW_MS;
    }
  }

  /** No half-open window of sixty seconds holds more than ten admissions. */
  lemma AtMostTenPerWindow(events: seq<Event>, from: int, lo: nat, hi: nat)
    requires Run(events).Some? && lo <= hi <= |Run(events).value.admitted|
    requires forall i :: lo <= i < hi ==> from <= Run(events).value.admitted[i] < from + RATE_WINDOW_MS
    ensures hi - lo <= MAX_RECENT
  {
    EveryRunKeepsInv(events);
    SparseMeansFew(Run(events).value.admitted, from, lo, hi);
  }

  /** A result carries a button only for a response that named one of the request's own buttons. */
  lemma ButtonsAreOffered(events: seq<Event>, i: nat)
    requires Run(events).Some? && i < |Run(events).value.settlements|
    ensures var s := Run(events).value; var r := s.settlements[i];
            r.Settled? && r.button.Some? ==>
              r.reason == Response && r.id in s.offered && r.button.value in s.offered[r.id]
    ensures Run(events).value.cancels == CancelsOwed(Run(events).value.settlements)
  {
    EveryRunKeepsInv(events);
  }

  lemma FinishFirst(s: Notices, reason: Reason)
    requires s.pending != [] && reason != Response
    ensures Finish(s, s.pending[0].id, None, reason)
            == s.(pending := s.pending[1..], settlements := s.settlements + [Settled(s.pending[0].id, None, reason)],
                  cancels := s.cancels + [Cancellation(s.pending[0].id, reason)])
  {
    assert s.pending[..0] + s.pending[1..] == s.pending[1..];
  }

  lemma {:induction false} FinishAllEmpties(s: Notices, reason: Reason)
    requires DistinctPending(s.pending) && reason != Response
    ensures FinishAll(s, Ids(s.pending), reason).pending == []
    decreases |s.pending|
  {
    if s.pending != [] {
      FinishFirst(s, reason);
      assert Ids(s.pending)[1..] == Ids(s.pending[1..]);
      FinishAllEmpties(Finish(s, s.pending[0].id, None, reason), reason);
    }
  }

  /** Cancel-all leaves nothing pending, so every request registered before it is settled. */
  lemma CancelAllSettlesEverything(events: seq<Event>, reason: Reason, id: RequestId)
    requires Run(events).Some? && reason != Response && id in Run(events).value.registered
    ensures IsSettled(Step(Run(events).value, CancelAll(reason)), id)
  {
    EveryRunKeepsInv(events);
    var s := Run(events).value;
    StepKeeps(s, CancelAll(reason));
    FinishAllEmpties(s, reason);
    FinishAllKeepsRegistered(s, Ids(s.pending), reason);
    assert !IsPending(Step(s, CancelAll(reason)), id);
  }

  lemma {:induction false} FinishAllKeepsRegistered(s: Notices, ids: seq<RequestId>, reason: Reason)
    ensures FinishAll(s, ids, reason).registered == s.registered
    decreases |ids|
  {
    if ids != [] {
      FinishAllKeepsRegistered(Finish(s, ids[0], None, reason), ids[1..], reason);
    }
  }
}
