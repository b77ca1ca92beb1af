/**
 What the steps of the window protocol achieve, told by the state a caller sees before and after:
 selections that succeed take effect, failures are reported, and what Core publishes reaches the client.
 */
module WindowEffects {
  import opened Common
  import opened WindowCatalog
  import opened WindowProtocol

  /** The next catalog revision carries this state, and no other catalog changed. */
  ghost predicate PublishedNext(c: Core, c': Core, s: WindowState) {
    c'.catalogRevision == c.catalogRevision + 1 && c'.catalogs == c.catalogs[c.catalogRevision + 1 := s]
  }

  ghost predicate PublishedNothing(c: Core, c': Core) {
    c'.catalogRevision == c.catalogRevision && c'.catalogs == c.catalogs
  }

  ghost predicate PublishedIf(c: Core, c': Core, condition: bool, s: WindowState) {
    if condition then PublishedNext(c, c', s) else PublishedNothing(c, c')
  }

  /**
   A selection whose capture was replaced makes its target the active window and publishes it as
   settled, with the request, if Core is live and the target is the main window or a listed one;
   otherwise it closes the Session and leaves the active window alone.
   */
  lemma SelectionTakesEffect(w: World)
    requires Enabled(w, SelectionSucceeds)
    ensures var c, c' := w.core, Step(w, SelectionSucceeds).core;
            var t := c.job.target;
            if !c.closed && (t == c.attached || exists i :: 0 <= i < |c.windows| && c.windows[i].targetId == t)
            then !c'.closed && c'.active == t && !c'.switching && c'.revision == c.revision && c'.windows == c.windows
                 && PublishedIf(c, c', c.available, WindowState(Selection(c.revision, t, false, c.job.requestId, None), c.windows))
                 && c'.job == (if c.job.closing.Some? then ClosingChild(c.job.closing.value) else Idle)
            else c'.closed && c'.active == c.active && PublishedNothing(c, c')
  {
  }

  /** A failed selection closes the Session exactly when nothing is left to fall back on. */
  lemma FailureClosesIffNothingIsLeft(w: World, replacing: bool, lost: bool, error: WireError)
    requires Enabled(w, SelectionFails(replacing, lost, error))
    ensures var c, c' := w.core, Step(w, SelectionFails(replacing, lost, error)).core;
            && (c'.closed <==> c.closed || replacing || c.job.recovering || (lost && c.active == c.attached))
            && c'.active == c.active && c'.revision == c.revision && c'.job == Idle
  {
  }

  /**
   A survivable failure is reported for its request with the window that stays active; if that window
   is gone too, the return to the main one is queued and announced; a close that failed says so.
   */
  lemma FailureIsReported(w: World, lost: bool, error: WireError)
    requires Enabled(w, SelectionFails(false, lost, error))
    requires !w.core.closed && w.core.available && !w.core.job.recovering && !w.core.recoveryQueued
    requires lost ==> w.core.active != w.core.attached
    ensures var c, c' := w.core, Step(w, SelectionFails(false, lost, error)).core;
            var report := WindowState(Selection(c.revision, c.active, false, c.job.requestId, Some(error)), c.windows);
            var leaving := WindowState(Selection(c.revision, c.active, true, None, None), c.windows);
            var told := if lost then [report, leaving] else [report];
            var all := told + if c.job.closing.None? then []
                              else [WindowState(Selection(c.revision, c.active, lost, Some(c.job.closing.value.requestId), Some(NOT_RETURNED)), c.windows)];
            && c'.switching == lost && c'.recoveryQueued == lost
            && c'.catalogRevision == c.catalogRevision + |all|
            && (forall k :: 0 <= k < |all| ==>
                  c.catalogRevision + 1 + k in c'.catalogs && c'.catalogs[c.catalogRevision + 1 + k] == all[k])
            && (forall k :: k in c.catalogs && k <= c.catalogRevision ==> k in c'.catalogs && c'.catalogs[k] == c.catalogs[k])
  {
  }

  /** Whether the command's sender was shown the selection Core is in now, and none is under way. */
  predicate UpToDate(c: Core, command: Command) {
    !c.switching && command.revision == c.revision
  }

  /** A stale command works on nothing; a stale request is answered with an error, a closed Core answers nothing. */
  lemma StaleCommandIsRefused(w: World, message: nat)
    requires Enabled(w, CommandArrives(message)) && (w.core.closed || !UpToDate(w.core, w.sent[message].command))
    ensures var w', action := Step(w, CommandArrives(message)), w.sent[message].command.action;
            var c, c' := w.core, w'.core;
            && w'.deeds == w.deeds && c'.job == Idle && c'.active == c.active && c'.revision == c.revision && c'.switching == c.switching
            && PublishedIf(c, c', !c.closed && c.available && !action.Act?,
                 WindowState(Selection(c.revision, c.active, c.switching, if action.Act? then None else Some(action.requestId), Some(STALE_REQUEST)), c.windows))
  {
  }

  /** An up-to-date command works on the active window until it is done, and publishes nothing. */
  lemma CommandStarts(w: World, message: nat)
    requires Enabled(w, CommandArrives(message)) && !w.core.closed && UpToDate(w.core, w.sent[message].command)
    requires w.sent[message].command.action.Act?
    ensures var w' := Step(w, CommandArrives(message));
            w'.core == w.core.(job := Acting(message)) && w'.deeds == w.deeds + [Deed(message, w.core.active)]
  {
  }

  /** An up-to-date request for another window begins its selection: the revision rises and the switch is announced. */
  lemma SelectionBegins(w: World, message: nat, t: string, q: string)
    requires Enabled(w, CommandArrives(message)) && !w.core.closed && UpToDate(w.core, w.sent[message].command)
    requires w.sent[message].command.action == Select(t, q)
    ensures var c, c' := w.core, Step(w, CommandArrives(message)).core;
            if t == c.active
            then c'.job == Idle && !c'.switching && c'.active == t && c'.revision == c.revision
                 && PublishedIf(c, c', c.available, WindowState(Selection(c.revision, t, false, Some(q), None), c.windows))
            else c'.job == Selecting(t, Some(q), false, None) && c'.switching && c'.active == c.active && c'.revision == c.revision + 1
                 && PublishedIf(c, c', c.available, WindowState(Selection(c.revision + 1, c.active, true, None, None), c.windows))
  {
  }

  /** An up-to-date close refuses the main window and otherwise first returns to it, remembering which child to close. */
  lemma CloseBegins(w: World, message: nat, q: string)
    requires Enabled(w, CommandArrives(message)) && !w.core.closed && UpToDate(w.core, w.sent[message].command)
    requires w.sent[message].command.action == CloseActive(q)
    ensures var c, c' := w.core, Step(w, CommandArrives(message)).core;
            if c.active == c.attached
            then c'.job == Idle && !c'.switching && c'.revision == c.revision
                 && PublishedIf(c, c', c.available, WindowState(Selection(c.revision, c.active, false, Some(q), Some(MAIN_WINDOW)), c.windows))
            else c'.job == Selecting(c.attached, None, false, Some(Closing(message, q, c.active))) && c'.switching && c'.revision == c.revision + 1
                 && PublishedIf(c, c', c.available, WindowState(Selection(c.revision + 1, c.active, true, None, None), c.windows))
  {
  }

  /** The child named when the close began is the one closed, and the outcome goes to the request that asked. */
  lemma CloseEnds(w: World, failure: Option<WireError>)
    requires Enabled(w, ChildClosed(failure))
    ensures var c, w' := w.core, Step(w, ChildClosed(failure));
            && w'.core.job == Idle && w'.deeds == w.deeds + [Deed(c.job.close.message, c.job.close.child)]
            && PublishedIf(c, w'.core, !c.closed && c.available,
                 WindowState(Selection(c.revision, c.active, c.switching, Some(c.job.close.requestId), failure), c.windows))
  {
  }

  /** Losing the selected child queues one return to the main window; losing the main window ends the Session. */
  lemma LossIsRecovered(w: World)
    ensures var c, c' := w.core, Step(w, ActiveLost).core;
            && (c.active == c.attached ==> c'.closed)
            && (c.active != c.attached ==> c'.closed == c.closed)
            && (c.active != c.attached && !c.closed && !c.switching && !c.recoveryQueued ==>
                  && c'.recoveryQueued && c'.switching && c'.revision == c.revision
                  && PublishedIf(c, c', c.available, WindowState(Selection(c.revision, c.active, true, None, None), c.windows)))
            && (c.active != c.attached && (c.closed || c.switching || c.recoveryQueued) ==> c' == c)
  {
  }

  /** The queued return runs once, as a selection of the main window that may not fail. */
  lemma RecoveryRunsOnce(w: World)
    requires Enabled(w, RecoveryRuns)
    ensures var c, c' := w.core, Step(w, RecoveryRuns).core;
            && !c'.recoveryQueued
            && (!c.closed ==>
                  && c'.job == Selecting(c.attached, None, true, None) && c'.switching && c'.revision == c.revision + 1
                  && PublishedIf(c, c', c.available, WindowState(Selection(c.revision + 1, c.active, true, None, None), c.windows)))
            && (c.closed ==> c'.job == Idle && PublishedNothing(c, c'))
  {
  }

  /** Every change of the windows is published with the windows as they then are. */
  lemma ChangesArePublished(w: World, windows: seq<Window>)
    requires !w.core.closed && w.core.available
    ensures var c, c' := w.core, Step(w, WindowsChange(windows, false)).core;
            PublishedNext(c, c', WindowState(Selection(c.revision, c.active, c.switching, None, None), windows)) && c'.windows == windows
  {
  }

  /** A change that takes the selected child away also queues the one return to the main window. */
  lemma LostWindowIsLeft(w: World, windows: seq<Window>)
    requires !w.core.closed && w.core.available && w.core.active != w.core.attached && !w.core.switching && !w.core.recoveryQueued
    ensures var c, c' := w.core, Step(w, WindowsChange(windows, true)).core;
            var leaving := WindowState(Selection(c.revision, c.active, true, None, None), windows);
            && c'.recoveryQueued && c'.switching && c'.windows == windows && c'.active == c.active && c'.revision == c.revision
            && c'.catalogRevision == c.catalogRevision + 2
            && c'.catalogs == c.catalogs[c.catalogRevision + 1 := leaving][c.catalogRevision + 2 := leaving]
  {
  }

  // ------------------------------------------------------ reaching the client

  function FeedClient(cl: Client, frames: seq<Frame>): Client {
    if frames == [] then cl else AcceptFrame(FeedClient(cl, frames[..|frames| - 1]), frames[|frames| - 1])
  }

  /** Until the last frame of a newer snapshot the client's state and its request stay as they are. */
  lemma {:induction false} PartialCatalogWaits(cl: Client, s: WindowState, revision: nat, frames: seq<Frame>, count: nat)
    requires Framing(s, revision, frames) && cl.receiver.latestRevision < revision && count < |frames|
    requires cl.state.Some? ==> cl.state.value.selection.revision <= s.selection.revision
    ensures FeedClient(cl, frames[..count]) == cl.(receiver := Feed(cl.receiver, frames[..count]).0)
  {
    if count == 0 {
      assert frames[..0] == [];
    } else {
      var before, f := frames[..count - 1], frames[count - 1];
      PartialCatalogWaits(cl, s, revision, frames, count - 1);
      FeedSnapshot(cl.receiver, s, revision, frames, count);
      assert frames[..count][..count - 1] == before;
      var (r, o) := AcceptStep(Feed(cl.receiver, before).0, f);
      assert Feed(cl.receiver, frames[..count]).1[count - 1] == o;
      assert o == Expected(s, frames, count)[count - 1] == Nothing;
    }
  }

  /** The last frame of a newer snapshot completes it. */
  lemma LastFrameCompletes(r: Receiver, s: WindowState, revision: nat, frames: seq<Frame>)
    requires Framing(s, revision, frames) && frames != [] && r.latestRevision < revision
    ensures AcceptStep(Feed(r, frames[..|frames| - 1]).0, frames[|frames| - 1]) == (Receiver(revision, None), Snapshot(s))
  {
    var n := |frames|;
    FeedSnapshot(r, s, revision, frames, n);
    assert frames[..n] == frames && frames[..n][..n - 1] == frames[..n - 1];
    assert Feed(r, frames[..n]).1[n - 1] == Expected(s, frames, n)[n - 1];
  }

  /** What the completed snapshot does to the client's request. */
  ghost predicate CaughtUp(cl: Client, cl': Client, s: WindowState, revision: nat) {
    && cl'.state == Some(s) && cl'.receiver == Receiver(revision, None)
    && (if cl.pending.Some? && s.selection.requestId == cl.pending && !s.selection.selecting
        then cl'.pending == None
             && cl'.resolved == (if s.selection.error.None? then cl.resolved[cl.pending.value := s] else cl.resolved)
        else cl'.pending == cl.pending && cl'.resolved == cl.resolved)
  }

  lemma CompletedSnapshotIsShown(cl: Client, f: Frame, s: WindowState, revision: nat)
    requires f.selection == s.selection && (cl.state.Some? ==> cl.state.value.selection.revision <= s.selection.revision)
    requires AcceptStep(cl.receiver, f) == (Receiver(revision, None), Snapshot(s))
    ensures CaughtUp(cl, AcceptFrame(cl, f), s, revision)
  {
  }

  /**
   All frames of a newer snapshot, in order, bring the client to exactly that state with no catalog
   pending; if it is settled and names the pending request, that request ends, without an error in the
   state as resolved.
   */
  lemma ClientCatchesUp(cl: Client, s: WindowState, revision: nat, frames: seq<Frame>)
    requires Framing(s, revision, frames) && frames != [] && cl.receiver.latestRevision < revision
    requires cl.state.Some? ==> cl.state.value.selection.revision <= s.selection.revision
    ensures CaughtUp(cl, FeedClient(cl, frames), s, revision)
  {
    var n := |frames| - 1;
    PartialCatalogWaits(cl, s, revision, frames, n);
    LastFrameCompletes(cl.receiver, s, revision, frames);
    CompletedSnapshotIsShown(FeedClient(cl, frames[..n]), frames[n], s, revision);
  }

  /** The client shows what Core is in: the settled selection and the windows of this moment. */
  ghost predicate InStep(w: World) {
    var c, cl := w.core, w.client;
    && !c.closed && c.available && !c.switching && c.job.Idle?
    && cl.receiver.pending.None? && cl.receiver.latestRevision <= c.catalogRevision && cl.pending.None?
    && cl.state.Some? && cl.state.value.windows == c.windows
    && cl.state.value.selection.revision == c.revision && cl.state.value.selection.selectedTargetId == c.active
    && !cl.state.value.selection.selecting
  }

  /** A client in step gets its commands through to the window it shows. */
  lemma CommandGetsThrough(w: World)
    requires InStep(w)
    ensures Enabled(w, ClientSends)
    ensures var w1 := Step(w, ClientSends);
            && Enabled(w1, CommandArrives(|w.sent|))
            && Step(w1, CommandArrives(|w.sent|)).deeds == w.deeds + [Deed(|w.sent|, w.client.state.value.selection.selectedTargetId)]
  {
  }

  /** The steps of a selection that goes well: asked for, delivered, captured. */
  function Selected(w: World, t: string, q: string): World
    requires InStep(w) && q !in w.wishes && t != w.core.active && Listed(w.core.windows, t)
  {
    var w1 := Step(w, ClientRequests(WishSelect(t), q));
    var w2 := Step(w1, CommandArrives(|w.sent|));
    Step(w2, SelectionSucceeds)
  }

  lemma SelectionSteps(w: World, t: string, q: string)
    requires InStep(w) && q !in w.wishes && t != w.core.active && Listed(w.core.windows, t)
    ensures var c, w3 := w.core, Selected(w, t, q); var c' := w3.core;
            var s := WindowState(Selection(c.revision + 1, t, false, Some(q), None), c.windows);
            && w3.client == w.client.(pending := Some(q)) && c.windows != []
            && c'.active == t && c'.job == Idle && !c'.switching && !c'.closed && c'.available
            && c'.windows == c.windows && c'.revision == c.revision + 1 && c'.catalogRevision == c.catalogRevision + 2
            && c.catalogRevision + 2 in c'.catalogs && c'.catalogs[c.catalogRevision + 2] == s
  {
    var i :| 0 <= i < |w.core.windows| && w.core.windows[i].targetId == t;
    assert w.core.windows != [];
  }

  /**
   A client in step asks for a listed window, the request arrives, the capture succeeds and the last
   publication's frames arrive in order: Core is on that window, and the client shows it with its
   request resolved. The announcement in between may be lost.
   */
  lemma {:induction false} SelectionRoundTrip(w: World, t: string, q: string, frames: seq<Frame>)
    requires InStep(w) && q !in w.wishes && t != w.core.active && Listed(w.core.windows, t)
    requires var s := WindowState(Selection(w.core.revision + 1, t, false, Some(q), None), w.core.windows);
             Framing(s, w.core.catalogRevision + 2, frames)
    ensures var w3 := Selected(w, t, q);
            var cl := FeedClient(w3.client, frames);
            && w3.core.active == t && !w3.core.switching && !w3.core.closed && w3.core.revision == w.core.revision + 1
            && (forall i :: 0 <= i < |frames| ==> Published(w3.core.catalogs, frames[i]))
            && cl.state.Some? && cl.state.value.selection.selectedTargetId == t && cl.state.value.windows == w.core.windows
            && cl.pending.None? && q in cl.resolved && cl.resolved[q] == cl.state.value
            && InStep(w3.(client := cl))
  {
    var s := WindowState(Selection(w.core.revision + 1, t, false, Some(q), None), w.core.windows);
    var w3 := Selected(w, t, q);
    SelectionSteps(w, t, q);
    ClientCatchesUp(w3.client, s, w.core.catalogRevision + 2, frames);
    assert w3.core.catalogs[w.core.catalogRevision + 2] == s;
  }

  /**
   A request leaves the client exactly when it shows a settled, complete state and waits for nothing,
   and the request is for another listed window or to close a window that is not the main one. It then
   carries the revision of the state shown, and the client waits for its answer.
   */
  lemma RequestIsSentIffSensible(w: World, wish: Wish, q: string)
    requires q !in w.wishes
    ensures var cl := w.client;
            Enabled(w, ClientRequests(wish, q)) <==>
              && cl.state.Some? && !cl.state.value.selection.selecting && cl.receiver.pending.None? && cl.pending.None?
              && var shown, windows := cl.state.value.selection.selectedTargetId, cl.state.value.windows;
              if wish.WishClose? then forall i :: 0 <= i < |windows| && windows[i].main && windows[i].targetId == shown ==>
                                        exists j :: 0 <= j < i && windows[j].targetId == shown
              else wish.targetId != shown && exists i :: 0 <= i < |windows| && windows[i].targetId == wish.targetId
    ensures Enabled(w, ClientRequests(wish, q)) ==>
              var w', selection := Step(w, ClientRequests(wish, q)), w.client.state.value.selection;
              var action := if wish.WishClose? then CloseActive(q) else Select(wish.targetId, q);
              && w'.sent == w.sent + [Sent(Command(selection.revision, action), selection.selectedTargetId)]
              && w'.client == w.client.(pending := Some(q)) && w'.core == w.core && w'.deeds == w.deeds
  {
  }

  /** The steps of a close that goes well: asked for, delivered, main window captured, child closed. */
  ghost predicate Closes(w: World, q: string, w': World)
    requires InStep(w)
  {
    && Enabled(w, ClientRequests(WishClose, q))
    && var w1 := Step(w, ClientRequests(WishClose, q));
    && Enabled(w1, CommandArrives(|w.sent|))
    && var w2 := Step(w1, CommandArrives(|w.sent|));
    && Enabled(w2, SelectionSucceeds)
    && var w3 := Step(w2, SelectionSucceeds);
    && Enabled(w3, ChildClosed(None))
    && w' == Step(w3, ChildClosed(None))
  }

  /**
   A client in step that shows a child asks for its close: Core returns to the main window, closes the
   very child shown, and the last publication's frames resolve the request on the main window.
   */
  lemma {:induction false} CloseRoundTrip(w: World, q: string, frames: seq<Frame>) returns (w': World)
    requires InStep(w) && q !in w.wishes && w.core.active != w.core.attached && w.core.windows != []
    requires forall i :: 0 <= i < |w.core.windows| && w.core.windows[i].main ==> w.core.windows[i].targetId != w.core.active
    requires var s := WindowState(Selection(w.core.revision + 1, w.core.attached, false, Some(q), None), w.core.windows);
             Framing(s, w.core.catalogRevision + 3, frames)
    ensures Closes(w, q, w')
    ensures var cl := FeedClient(w'.client, frames);
            && w'.core.active == w.core.attached && w'.core.job == Idle && !w'.core.switching && !w'.core.closed
            && w'.deeds == w.deeds + [Deed(|w.sent|, w.core.active), Deed(|w.sent|, w.core.active)]
            && (forall i :: 0 <= i < |frames| ==> Published(w'.core.catalogs, frames[i]))
            && cl.state.Some? && cl.state.value.selection.selectedTargetId == w.core.attached
            && cl.pending.None? && q in cl.resolved && cl.resolved[q] == cl.state.value
            && InStep(w'.(client := cl))
  {
    var s := WindowState(Selection(w.core.revision + 1, w.core.attached, false, Some(q), None), w.core.windows);
    w' := CloseSteps(w, q);
    ClientCatchesUp(w'.client, s, w.core.catalogRevision + 3, frames);
    assert w'.core.catalogs[w.core.catalogRevision + 3] == s;
  }

  lemma CloseSteps(w: World, q: string) returns (w': World)
    requires InStep(w) && q !in w.wishes && w.core.active != w.core.attached
    requires forall i :: 0 <= i < |w.core.windows| && w.core.windows[i].main ==> w.core.windows[i].targetId != w.core.active
    ensures Closes(w, q, w')
    ensures var c, c' := w.core, w'.core;
            var s := WindowState(Selection(c.revision + 1, c.attached, false, Some(q), None), c.windows);
            && w'.client == w.client.(pending := Some(q))
            && c'.active == c.attached && c'.attached == c.attached && c'.job == Idle && !c'.switching && !c'.closed && c'.available
            && c'.windows == c.windows && c'.revision == c.revision + 1 && c'.catalogRevision == c.catalogRevision + 3
            && c.catalogRevision + 3 in c'.catalogs && c'.catalogs[c.catalogRevision + 3] == s
            && w'.deeds == w.deeds + [Deed(|w.sent|, c.active), Deed(|w.sent|, c.active)]
  {
    var w1 := Step(w, ClientRequests(WishClose, q));
    var w3 := Step(Step(w1, CommandArrives(|w.sent|)), SelectionSucceeds);
    return Step(w3, ChildClosed(None));
  }
}
