/** What a caller of the notice requests gets: for asking, for answering, and when a request ends otherwise. */
module NoticeEffects {
  import opened Common
  import opened NoticeRequests

  /** The entry at `i` is settled this way, all others stay, and a cancel is attempted unless it was answered. */
  ghost predicate Ends(s: Notices, s': Notices, i: nat, button: Option<string>, reason: Reason)
    requires i < |s.pending|
  {
    && s'.pending == s.pending[..i] + s.pending[i + 1..]
    && s'.settlements == s.settlements + [Settled(s.pending[i].id, button, reason)]
    && s'.cancels == s.cancels + (if reason == Response then [] else [Cancellation(s.pending[i].id, reason)])
    && s'.recent == s.recent && s'.admitted == s.admitted && s'.registered == s.registered
  }

  ghost predicate NothingEnds(s: Notices, s': Notices) {
    s'.pending == s.pending && s'.settlements == s.settlements && s'.cancels == s.cancels
    && s'.recent == s.recent && s'.admitted == s.admitted && s'.registered == s.registered
  }

  lemma FoundAt(s: Notices, i: nat)
    requires Inv(s) && i < |s.pending|
    ensures Find(s.pending, s.pending[i].id) == i
  {
    var j := Find(s.pending, s.pending[i].id);
    assert j <= i;
    assert s.pending[j].id == s.pending[i].id;
  }

  /**
   In any run a timely response with one of the request's own buttons, or with none, settles exactly that
   request with exactly that button; a late one settles it as expired; one that names another button is
   refused and settles nothing; one for no pending request does nothing.
   */
  lemma ResponseIsDelivered(events: seq<Event>, now: int, i: nat, button: Option<string>)
    requires Run(events).Some? && i < |Run(events).value.pending| && Run(events).value.clock <= now
    ensures var s := Run(events).value;
            var p := s.pending[i];
            var s' := Step(s, Respond(now, p.id, button));
            if p.expiresAt <= now then Ends(s, s', i, None, Expired) && RespondAnswer(s, now, p.id, button) == Ok(false)
            else if button.None? || button.value in p.buttons
            then Ends(s, s', i, button, Response) && RespondAnswer(s, now, p.id, button) == Ok(true)
            else NothingEnds(s, s') && RespondAnswer(s, now, p.id, button) == Err(MessageInvalid)
  {
    EveryRunKeepsInv(events);
    FoundAt(Run(events).value, i);
    FoundResponse(Run(events).value, now, i, button);
  }

  lemma FinishEnds(s: Notices, i: nat, button: Option<string>, reason: Reason)
    requires i < |s.pending| && Find(s.pending, s.pending[i].id) == i
    ensures Ends(s, Finish(s, s.pending[i].id, button, reason), i, button, reason)
    ensures Finish(s, s.pending[i].id, button, reason).clock == s.clock
  {
    if reason == Response {
      assert s.cancels + [] == s.cancels;
    }
  }

  lemma FoundResponse(s: Notices, now: int, i: nat, button: Option<string>)
    requires i < |s.pending| && Find(s.pending, s.pending[i].id) == i && s.clock <= now
    ensures var p := s.pending[i];
            var s' := Step(s, Respond(now, p.id, button));
            if p.expiresAt <= now then Ends(s, s', i, None, Expired) && RespondAnswer(s, now, p.id, button) == Ok(false)
            else if button.None? || button.value in p.buttons
            then Ends(s, s', i, button, Response) && RespondAnswer(s, now, p.id, button) == Ok(true)
            else NothingEnds(s, s') && RespondAnswer(s, now, p.id, button) == Err(MessageInvalid)
  {
    FinishEnds(s, i, None, Expired);
    FinishEnds(s, i, button, Response);
  }

  lemma ResponseToNothing(s: Notices, now: int, id: RequestId, button: Option<string>)
    requires s.clock <= now && forall i :: 0 <= i < |s.pending| ==> s.pending[i].id != id
    ensures NothingEnds(s, Step(s, Respond(now, id, button))) && RespondAnswer(s, now, id, button) == Ok(false)
  {
  }

  /** In any run a request's timer settles it as expired, its abort signal as cancelled, with a cancel and without a button. */
  lemma TimerAndSignalEnd(events: seq<Event>, i: nat)
    requires Run(events).Some? && i < |Run(events).value.pending|
    ensures var s := Run(events).value; var id := s.pending[i].id;
            && Enabled(s, TimerFires(id)) && Ends(s, Step(s, TimerFires(id)), i, None, Expired)
            && Enabled(s, SignalAborts(id)) && Ends(s, Step(s, SignalAborts(id)), i, None, Cancelled)
  {
    EveryRunKeepsInv(events);
    FoundAt(Run(events).value, i);
    FinishEnds(Run(events).value, i, None, Expired);
    FinishEnds(Run(events).value, i, None, Cancelled);
  }

  // ----------------------------------------------------------------- asking

  /** The limiter's own count of admissions younger than the window is that of the whole history. */
  ghost predicate YoungerThanWindow(s: Notices, now: int, k: nat) {
    RecentFrom(s.admitted, now, k)
  }

  lemma LimiterCountsHistory(s: Notices, now: int)
    requires Inv(s) && s.clock <= now
    ensures YoungerThanWindow(s, now, |KeepRecent(s.recent, now)|)
  {
    var tail, k := s.recent, |KeepRecent(s.recent, now)|;
    SortedTail(tail, s.admitted);
    KeepRecentIsSuffix(tail, now);
    OldGrows(s.admitted, tail, k, s.clock, now);
    forall i | |s.admitted| - k <= i < |s.admitted| ensures s.admitted[i] > now - RATE_WINDOW_MS {
      assert tail[i - (|s.admitted| - |tail|)] == s.admitted[i];
    }
  }

  /** A call the protocol can carry: a lifetime of at most two minutes, distinct buttons, a valid payload. */
  predicate WellFormed(e: Event)
    requires e.Request?
  {
    1 <= e.timeoutMs <= 120_000 && e.valid && forall i, j :: 0 <= i < j < |e.buttons| ==> e.buttons[i] != e.buttons[j]
  }

  /**
   In any run a well-formed request that was not aborted is admitted if and only if fewer than four are
   pending and fewer than ten were admitted in the last minute of the whole history.
   */
  lemma AdmittedIffRoom(events: seq<Event>, e: Event, k: nat)
    requires Run(events).Some? && e.Request? && Enabled(Run(events).value, e) && WellFormed(e) && !e.aborted
    requires YoungerThanWindow(Run(events).value, e.now, k)
    ensures var s := Run(events).value; var s' := Step(s, e);
            if |s.pending| < 4 && k < 10
            then s'.admitted == s.admitted + [e.now] && s'.registered == s.registered + [e.id]
                 && (e.sends ==> s'.pending == s.pending + [PendingNotice(e.id, e.buttons, e.now + e.timeoutMs)]
                                 && s'.settlements == s.settlements)
                 && (!e.sends ==> s'.pending == s.pending && s'.settlements == s.settlements + [Settlement.Rejected(e.id)])
                 && s'.cancels == s.cancels && Outcome(s, e) == Handed
            else s'.admitted == s.admitted && s'.registered == s.registered && s'.pending == s.pending
                 && s'.settlements == s.settlements && s'.cancels == s.cancels && Outcome(s, e) == Refused(LimitReached)
  {
    EveryRunKeepsInv(events);
    var s := Run(events).value;
    LimiterCountsHistory(s, e.now);
    SameCount(s.admitted, e.now, k, |KeepRecent(s.recent, e.now)|);
  }

  lemma SameCount(times: seq<int>, now: int, k: nat, m: nat)
    requires RecentFrom(times, now, k) && RecentFrom(times, now, m)
    ensures k == m
  {
    if m > 0 {
      assert times[|times| - m] > now - RATE_WINDOW_MS;
    }
    if k > 0 {
      assert times[|times| - k] > now - RATE_WINDOW_MS;
    }
  }

  /** A malformed call is refused and an aborted one ends as cancelled; neither touches tables, limiter or channel. */
  lemma OthersAreTurnedAway(s: Notices, e: Event)
    requires e.Request? && Enabled(s, e) && (!WellFormed(e) || e.aborted)
    ensures NothingEnds(s, Step(s, e)) && Step(s, e).offered == s.offered
    ensures Outcome(s, e) == if WellFormed(e) then AlreadyAborted else Refused(MessageInvalid)
  {
  }

  // ------------------------------------------------------------- cancel-all

  function AllSettled(pending: seq<PendingNotice>, reason: Reason): seq<Settlement> {
    seq(|pending|, i requires 0 <= i < |pending| => Settled(pending[i].id, None, reason))
  }

  function AllCancelled(pending: seq<PendingNotice>, reason: Reason): seq<Cancellation> {
    seq(|pending|, i requires 0 <= i < |pending| => Cancellation(pending[i].id, reason))
  }

  lemma SettledHead(before: seq<Settlement>, pending: seq<PendingNotice>, reason: Reason)
    requires pending != []
    ensures before + [Settled(pending[0].id, None, reason)] + AllSettled(pending[1..], reason) == before + AllSettled(pending, reason)
  {
    assert AllSettled(pending, reason) == [Settled(pending[0].id, None, reason)] + AllSettled(pending[1..], reason);
  }

  lemma CancelledHead(before: seq<Cancellation>, pending: seq<PendingNotice>, reason: Reason)
    requires pending != []
    ensures before + [Cancellation(pending[0].id, reason)] + AllCancelled(pending[1..], reason) == before + AllCancelled(pending, reason)
  {
    assert AllCancelled(pending, reason) == [Cancellation(pending[0].id, reason)] + AllCancelled(pending[1..], reason);
  }

  lemma {:induction false} FinishAllInOrder(s: Notices, reason: Reason)
    requires DistinctPending(s.pending) && reason != Response
    ensures var s' := FinishAll(s, Ids(s.pending), reason);
            && s'.pending == [] && s'.settlements == s.settlements + AllSettled(s.pending, reason)
            && s'.cancels == s.cancels + AllCancelled(s.pending, reason)
    decreases |s.pending|
  {
    if s.pending == [] {
      assert AllSettled([], reason) == [] && AllCancelled([], reason) == [];
    } else {
      FinishFirst(s, reason);
      assert Ids(s.pending)[1..] == Ids(s.pending[1..]);
      FinishAllInOrder(Finish(s, s.pending[0].id, None, reason), reason);
      SettledHead(s.settlements, s.pending, reason);
      CancelledHead(s.cancels, s.pending, reason);
    }
  }

  /** In any run cancel-all settles every pending request with its reason, in the order they were made, and attempts a cancel for each. */
  lemma CancelAllEndsInOrder(events: seq<Event>, reason: Reason)
    requires Run(events).Some? && reason != Response
    ensures var s := Run(events).value; var s' := Step(s, CancelAll(reason));
            && s'.pending == [] && s'.settlements == s.settlements + AllSettled(s.pending, reason)
            && s'.cancels == s.cancels + AllCancelled(s.pending, reason)
  {
    EveryRunKeepsInv(events);
    FinishAllInOrder(Run(events).value, reason);
  }
}
