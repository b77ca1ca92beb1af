/**
 The two-party protocol that selects which window of a Session a Viewer sees and controls. Core tags
 every published window state with a revision; the client tags every window-scoped command with the
 revision of the state it accepted last. Nothing is assumed of the channels between them.
 */
module WindowProtocol {
  import opened Common
  import opened WindowCatalog

  const STALE_REQUEST := WireError("PROTOCOL_MESSAGE_INVALID", "Window selection changed before this request", false)
  const MAIN_WINDOW := WireError("CAPABILITY_UNAVAILABLE", "End the Session to close its main window", false)
  const NOT_RETURNED := WireError("CAPTURE_DENIED", "Could not return to the main window", false)

  /** `Act` stands for every command that works on the selected window: input, navigation, transfers. */
  datatype Action = Act | Select(targetId: string, requestId: string) | CloseActive(requestId: string)

  datatype Command = Command(revision: nat, action: Action)

  /** The second half of a `window.close`: the child to close once the main window is selected. */
  datatype Closing = Closing(message: nat, requestId: string, child: string)

  /** What the control queue is suspended in; `message` identifies the delivered command. */
  datatype Job =
    | Idle
    | Acting(message: nat)
    | Selecting(target: string, requestId: Option<string>, recovering: bool, closing: Option<Closing>)
    | ClosingChild(close: Closing)

  /** Core's side. `catalogs` is everything ever published, by catalog revision. */
  datatype Core = Core(
    revision: nat, catalogRevision: nat, active: string, attached: string,
    switching: bool, recoveryQueued: bool, closed: bool, available: bool,
    windows: seq<Window>, job: Job, catalogs: Catalogs)

  // ------------------------------------------------------------- Core's steps

  function StateOf(c: Core, requestId: Option<string>, error: Option<WireError>): WindowState {
    WindowState(Selection(c.revision, c.active, c.switching, requestId, error), c.windows)
  }

  function Publish(c: Core, requestId: Option<string>, error: Option<WireError>): Core {
    if c.closed || !c.available then c
    else c.(catalogRevision := c.catalogRevision + 1, catalogs := c.catalogs[c.catalogRevision + 1 := StateOf(c, requestId, error)])
  }

  predicate Owned(c: Core, target: string) {
    target == c.attached || exists i :: 0 <= i < |c.windows| && c.windows[i].targetId == target
  }

  function QueueRecovery(c: Core): Core {
    if c.closed || c.active == c.attached || c.switching || c.recoveryQueued then c
    else Publish(c.(recoveryQueued := true, switching := true), None, None)
  }

  /** The capture or the target of the selected window is gone. */
  function LoseActive(c: Core): Core {
    if c.active == c.attached then c.(closed := true) else QueueRecovery(c)
  }

  /** Up to the first await of a selection; the queue is idle before it. */
  function StartSelection(c: Core, target: string, requestId: Option<string>, recovering: bool, closing: Option<Closing>): Core {
    if target == c.active && !recovering then Publish(c, requestId, None)
    else Publish(c.(switching := true, revision := c.revision + 1, job := Selecting(target, requestId, recovering, closing)), None, None)
  }

  /** The rest of a selection whose media capture was replaced. */
  function FinishSelection(c: Core): Core
    requires c.job.Selecting?
  {
    var job := c.job;
    var c1 := c.(switching := false, job := Idle);
    if c.closed || !Owned(c, job.target) then c1.(closed := true)
    else
      var c2 := Publish(c1.(active := job.target), job.requestId, None);
      if job.closing.Some? then c2.(job := ClosingChild(job.closing.value)) else c2
  }

  /** The rest of a selection that failed; `lost` says that the previous window is gone as well. */
  function FailSelection(c: Core, replacing: bool, lost: bool, error: WireError): Core
    requires c.job.Selecting?
  {
    var job := c.job;
    var c1 := c.(switching := false, job := Idle);
    if replacing || job.recovering then c1.(closed := true)
    else
      var c2 := Publish(c1, job.requestId, Some(error));
      var c3 := if lost then LoseActive(c2) else c2;
      if job.closing.Some? then Publish(c3, Some(job.closing.value.requestId), Some(NOT_RETURNED)) else c3
  }

  /** The gate before every window-scoped command. */
  predicate Passes(c: Core, command: Command) {
    !c.closed && !c.switching && command.revision == c.revision
  }

  function HandleControl(c: Core, message: nat, command: Command): Core {
    if c.closed then c
    else if !Passes(c, command) then
      if command.action.Act? then c else Publish(c, Some(command.action.requestId), Some(STALE_REQUEST))
    else
      match command.action
      case Act => c.(job := Acting(message))
      case Select(targetId, requestId) => StartSelection(c, targetId, Some(requestId), false, None)
      case CloseActive(requestId) =>
        if c.active == c.attached then Publish(c, Some(requestId), Some(MAIN_WINDOW))
        else StartSelection(c, c.attached, None, false, Some(Closing(message, requestId, c.active)))
  }

  // ------------------------------------------------------ the client's steps

  /** `resolved` records which state ended each request without an error. */
  datatype Client = Client(
    state: Option<WindowState>, receiver: Receiver, pending: Option<string>, resolved: map<string, WindowState>)

  const UNCONNECTED := Client(None, FRESH, None, map[])

  function Teardown(cl: Client): Client {
    cl.(state := None, receiver := FRESH, pending := None)
  }

  function Settle(cl: Client, state: WindowState): Client {
    if cl.pending.None? || state.selection.requestId != cl.pending || state.selection.selecting then cl
    else if state.selection.error.Some? then cl.(pending := None)
    else cl.(pending := None, resolved := cl.resolved[cl.pending.value := state])
  }

  function AcceptFrame(cl: Client, f: Frame): Client {
    if cl.state.Some? && f.selection.revision < cl.state.value.selection.revision then cl
    else
      var (r, o) := AcceptStep(cl.receiver, f);
      match o
      case Nothing => cl.(receiver := r)
      case Snapshot(s) => Settle(cl.(receiver := r, state := Some(s)), s)
      case InvalidCatalog => Teardown(cl)
  }

  /** The client's own gate for window-scoped commands. */
  predicate MaySend(cl: Client, action: Action) {
    && cl.state.Some? && !cl.state.value.selection.selecting && cl.receiver.pending.None?
    && (cl.pending.None? || !action.Act?)
  }

  predicate Listed(windows: seq<Window>, target: string) {
    exists i :: 0 <= i < |windows| && windows[i].targetId == target
  }

  predicate MainSelected(s: WindowState) {
    exists i :: 0 <= i < |s.windows| && s.windows[i].targetId == s.selection.selectedTargetId && s.windows[i].main
                && forall j :: 0 <= j < i ==> s.windows[j].targetId != s.selection.selectedTargetId
  }

  /** What the user asks for: a window to select, or to close the selected one. */
  datatype Wish = WishSelect(targetId: string) | WishClose

  /** Whether a request leaves the client, rather than being refused or being already met. */
  predicate Requests(cl: Client, wish: Wish) {
    && cl.pending.None? && MaySend(cl, Act)
    && match wish
       case WishSelect(targetId) => targetId != cl.state.value.selection.selectedTargetId && Listed(cl.state.value.windows, targetId)
       case WishClose => !MainSelected(cl.state.value)
  }

  function ActionOf(wish: Wish, requestId: string): Action {
    match wish
    case WishSelect(targetId) => Select(targetId, requestId)
    case WishClose => CloseActive(requestId)
  }

  // ------------------------------------------------------------ both together

  /** A command on the wire, and the window its sender was shown when it sent it. */
  datatype Sent = Sent(command: Command, shown: string)

  /** A command worked on a window. */
  datatype Deed = Deed(message: nat, target: string)

  datatype World = World(core: Core, client: Client, sent: seq<Sent>, wishes: map<string, Wish>, deeds: seq<Deed>)

  datatype Event =
    | FrameArrives(frame: Frame)
    | ClientSends
    | ClientRequests(wish: Wish, requestId: string)
    | ClientDropsRequest
    | ClientTearsDown
    | CommandArrives(message: nat)
    | CommandWorks
    | CommandEnds
    | RecoveryRuns
    | ReturnRuns
    | SelectionSucceeds
    | SelectionFails(replacing: bool, lost: bool, error: WireError)
    | ChildClosed(failure: Option<WireError>)
    | WindowsChange(windows: seq<Window>, activeLost: bool)
    | ActiveLost
    | Republish
    | Connects
    | ControlCloses
    | Fails

  /** Any published frame and any sent command may arrive at any time, any number of times, or never. */
  predicate Enabled(w: World, e: Event) {
    match e
    case FrameArrives(f) => Published(w.core.catalogs, f)
    case ClientSends => MaySend(w.client, Act)
    case ClientRequests(wish, requestId) => Requests(w.client, wish) && requestId !in w.wishes
    case CommandArrives(message) => w.core.job.Idle? && message < |w.sent|
    case CommandWorks => w.core.job.Acting?
    case CommandEnds => w.core.job.Acting?
    case RecoveryRuns => w.core.job.Idle? && w.core.recoveryQueued
    case ReturnRuns => w.core.job.Idle? && w.core.active != w.core.attached && !w.core.closed
    case SelectionSucceeds => w.core.job.Selecting?
    case SelectionFails(_, _, _) => w.core.job.Selecting?
    case ChildClosed(_) => w.core.job.ClosingChild?
    case _ => true
  }

  function RunRecovery(c: Core): Core {
    var c1 := c.(recoveryQueued := false);
    if c.closed then c1 else StartSelection(c1, c.attached, None, true, None)
  }

  function EndClose(c: Core, error: Option<WireError>): Core
    requires c.job.ClosingChild?
  {
    Publish(c.(job := Idle), Some(c.job.close.requestId), error)
  }

  function Deeds(w: World, message: nat): seq<Deed>
    requires message < |w.sent|
  {
    if Passes(w.core, w.sent[message].command) then w.deeds + [Deed(message, w.core.active)] else w.deeds
  }

  function Step(w: World, e: Event): World
    requires Enabled(w, e)
  {
    var c, cl := w.core, w.client;
    match e
    case FrameArrives(f) => w.(client := AcceptFrame(cl, f))
    case ClientSends => w.(sent := w.sent + [Sent(Command(cl.state.value.selection.revision, Act), cl.state.value.selection.selectedTargetId)])
    case ClientRequests(wish, requestId) =>
      w.(client := cl.(pending := Some(requestId)), wishes := w.wishes[requestId := wish],
         sent := w.sent + [Sent(Command(cl.state.value.selection.revision, ActionOf(wish, requestId)), cl.state.value.selection.selectedTargetId)])
    case ClientDropsRequest => w.(client := cl.(pending := None))
    case ClientTearsDown => w.(client := Teardown(cl))
    case CommandArrives(message) => w.(core := HandleControl(c, message, w.sent[message].command), deeds := Deeds(w, message))
    case CommandWorks => w.(deeds := w.deeds + [Deed(c.job.message, c.active)])
    case CommandEnds => w.(core := c.(job := Idle))
    case RecoveryRuns => w.(core := RunRecovery(c))
    case ReturnRuns => w.(core := StartSelection(c, c.attached, None, false, None))
    case SelectionSucceeds => w.(core := FinishSelection(c))
    case SelectionFails(replacing, lost, error) => w.(core := FailSelection(c, replacing, lost, error))
    case ChildClosed(error) => w.(core := EndClose(c, error), deeds := w.deeds + [Deed(c.job.close.message, c.job.close.child)])
    case WindowsChange(windows, activeLost) =>
      w.(core := Publish(if activeLost then QueueRecovery(c.(windows := windows)) else c.(windows := windows), None, None))
    case ActiveLost => w.(core := LoseActive(c))
    case Republish => w.(core := Publish(c, None, None))
    case Connects => w.(core := Publish(c.(available := true), None, None))
    case ControlCloses => w.(core := c.(available := false))
    case Fails => w.(core := c.(closed := true))
  }

  function Begin(attached: string, windows: seq<Window>): World {
    World(Core(0, 0, attached, attached, false, false, false, false, windows, Idle, map[]), UNCONNECTED, [], map[], [])
  }

  predicate IsRun(ws: seq<World>, es: seq<Event>) {
    && |ws| == |es| + 1 && ws[0] == Begin(ws[0].core.attached, ws[0].core.windows)
    && forall i :: 0 <= i < |es| ==> Enabled(ws[i], es[i]) && ws[i + 1] == Step(ws[i], es[i])
  }

  // --------------------------------------------------------------- invariant

  ghost predicate InCatalogs(catalogs: Catalogs, s: WindowState) {
    exists k :: k in catalogs && catalogs[k] == s
  }

  /** What it means for a request to have been met by the selection of `target`. */
  predicate Meets(wish: Wish, attached: string, target: string) {
    target == match wish
              case WishSelect(targetId) => targetId
              case WishClose => attached
  }

  /** An acknowledgement without an error names a request and shows what it asked for. */
  predicate Acknowledges(wishes: map<string, Wish>, attached: string, s: Selection) {
    s.requestId.Some? && s.error.None? && !s.selecting ==>
      s.requestId.value in wishes && Meets(wishes[s.requestId.value], attached, s.selectedTargetId)
  }

  /**
   A published state is of a past revision, or of this one; and if of this one and settled, it shows
   the window that is active now and no selection is under way.
   */
  predicate Honest(c: Core, s: Selection) {
    && s.revision <= c.revision
    && (!s.selecting && s.revision == c.revision ==> s.selectedTargetId == c.active && !c.job.Selecting?)
  }

  ghost predicate EntryOk(c: Core, wishes: map<string, Wish>, k: nat) {
    k in c.catalogs ==>
      k <= c.catalogRevision && Honest(c, c.catalogs[k].selection) && Acknowledges(wishes, c.attached, c.catalogs[k].selection)
  }

  /** Every entry of Core's history of publications is in order, and its suspended job too. */
  ghost predicate CoreOk(c: Core, wishes: map<string, Wish>) {
    && (forall k {:trigger EntryOk(c, wishes, k)} :: EntryOk(c, wishes, k))
    && (c.job.Selecting? ==> c.switching)
    && (c.job.Selecting? && c.job.requestId.Some? ==> c.job.requestId.value in wishes && wishes[c.job.requestId.value] == WishSelect(c.job.target))
    && (c.job.Selecting? && c.job.closing.Some? ==>
          c.job.target == c.attached && c.job.closing.value.requestId in wishes && wishes[c.job.closing.value.requestId] == WishClose)
    && (c.job.ClosingChild? ==> c.active == c.attached && c.job.close.requestId in wishes && wishes[c.job.close.requestId] == WishClose)
  }

  /** Some published, settled state of this revision showed this window as selected. */
  ghost predicate Shown(catalogs: Catalogs, revision: nat, target: string) {
    exists k :: k in catalogs && catalogs[k].selection.revision == revision && catalogs[k].selection.selectedTargetId == target
                && !catalogs[k].selection.selecting
  }

  predicate NamesWish(wishes: map<string, Wish>, action: Action) {
    match action
    case Act => true
    case Select(targetId, requestId) => requestId in wishes && wishes[requestId] == WishSelect(targetId)
    case CloseActive(requestId) => requestId in wishes && wishes[requestId] == WishClose
  }

  ghost predicate SentOk(catalogs: Catalogs, wishes: map<string, Wish>, m: Sent) {
    Shown(catalogs, m.command.revision, m.shown) && NamesWish(wishes, m.command.action)
  }

  ghost predicate ClientOk(catalogs: Catalogs, wishes: map<string, Wish>, attached: string, cl: Client) {
    && ReceiverInv(catalogs, cl.receiver)
    && (cl.state.Some? ==> InCatalogs(catalogs, cl.state.value))
    && forall q :: q in cl.resolved ==>
         q in wishes && Meets(wishes[q], attached, cl.resolved[q].selection.selectedTargetId)
         && InCatalogs(catalogs, cl.resolved[q])
  }

  /** A suspended command still faces the window its sender was shown. */
  ghost predicate JobOk(c: Core, sent: seq<Sent>) {
    match c.job
    case Idle => true
    case Acting(message) => message < |sent| && sent[message].shown == c.active
    case Selecting(_, _, _, closing) =>
      closing.Some? ==> closing.value.message < |sent| && sent[closing.value.message].shown == closing.value.child
    case ClosingChild(closing) => closing.message < |sent| && sent[closing.message].shown == closing.child
  }

  ghost predicate DeedOk(sent: seq<Sent>, d: Deed) {
    d.message < |sent| && d.target == sent[d.message].shown
  }

  ghost predicate Inv(w: World) {
    && CoreOk(w.core, w.wishes) && ClientOk(w.core.catalogs, w.wishes, w.core.attached, w.client)
    && (forall i :: 0 <= i < |w.sent| ==> SentOk(w.core.catalogs, w.wishes, w.sent[i]))
    && JobOk(w.core, w.sent)
    && (forall i :: 0 <= i < |w.deeds| ==> DeedOk(w.sent, w.deeds[i]))
  }

  // ------------------------------------------------------- Core keeps its part

  /** Later catalogs contain earlier ones. */
  ghost predicate Extends(catalogs': Catalogs, catalogs: Catalogs) {
    forall k :: k in catalogs ==> k in catalogs' && catalogs'[k] == catalogs[k]
  }

  /** Publishing a state that is in order keeps everything in order. */
  lemma PublishOk(c: Core, wishes: map<string, Wish>, requestId: Option<string>, error: Option<WireError>)
    requires CoreOk(c, wishes)
    requires c.job.Selecting? ==> c.switching
    requires Acknowledges(wishes, c.attached, StateOf(c, requestId, error).selection)
    ensures CoreOk(Publish(c, requestId, error), wishes)
    ensures Extends(Publish(c, requestId, error).catalogs, c.catalogs)
  {
    var c' := Publish(c, requestId, error);
    assert forall k :: EntryOk(c, wishes, k);
    forall k ensures EntryOk(c', wishes, k) {
      assert EntryOk(c, wishes, k);
    }
    forall k | k in c.catalogs ensures k in c'.catalogs && c'.catalogs[k] == c.catalogs[k] {
      assert EntryOk(c, wishes, k);
    }
  }

  /** Core may move to any state that leaves its publications as honest as they were. */
  lemma CoreMoves(c: Core, c': Core, wishes: map<string, Wish>)
    requires CoreOk(c, wishes) && c'.catalogs == c.catalogs && c'.catalogRevision == c.catalogRevision && c'.attached == c.attached
    requires c'.revision > c.revision || (c'.revision == c.revision && c'.active == c.active && (c'.job.Selecting? ==> c.job.Selecting?))
             || (c'.revision == c.revision && c.job.Selecting? && !c'.job.Selecting?)
    requires c'.job.Selecting? ==>
             && c'.switching
             && (c'.job.requestId.Some? ==> c'.job.requestId.value in wishes && wishes[c'.job.requestId.value] == WishSelect(c'.job.target))
             && (c'.job.closing.Some? ==>
                   c'.job.target == c'.attached && c'.job.closing.value.requestId in wishes && wishes[c'.job.closing.value.requestId] == WishClose)
    requires c'.job.ClosingChild? ==>
               c'.active == c'.attached && c'.job.close.requestId in wishes && wishes[c'.job.close.requestId] == WishClose
    ensures CoreOk(c', wishes)
  {
    forall k ensures EntryOk(c', wishes, k) {
      assert EntryOk(c, wishes, k);
    }
  }

  lemma QueueRecoveryOk(c: Core, wishes: map<string, Wish>)
    requires CoreOk(c, wishes)
    ensures CoreOk(QueueRecovery(c), wishes) && Extends(QueueRecovery(c).catalogs, c.catalogs)
    ensures QueueRecovery(c) == c.(recoveryQueued := QueueRecovery(c).recoveryQueued, switching := QueueRecovery(c).switching,
                                   catalogRevision := QueueRecovery(c).catalogRevision, catalogs := QueueRecovery(c).catalogs)
  {
    var c1 := c.(recoveryQueued := true, switching := true);
    CoreMoves(c, c1, wishes);
    PublishOk(c1, wishes, None, None);
  }

  lemma LoseActiveOk(c: Core, wishes: map<string, Wish>)
    requires CoreOk(c, wishes)
    ensures CoreOk(LoseActive(c), wishes) && Extends(LoseActive(c).catalogs, c.catalogs)
  {
    QueueRecoveryOk(c, wishes);
    CoreMoves(c, c.(closed := true), wishes);
  }

  lemma StartSelectionOk(c: Core, wishes: map<string, Wish>, target: string, requestId: Option<string>, recovering: bool, closing: Option<Closing>)
    requires CoreOk(c, wishes) && c.job.Idle?
    requires requestId.Some? ==> requestId.value in wishes && wishes[requestId.value] == WishSelect(target)
    requires closing.Some? ==> target == c.attached && closing.value.requestId in wishes && wishes[closing.value.requestId] == WishClose
    ensures var c' := StartSelection(c, target, requestId, recovering, closing);
            CoreOk(c', wishes) && Extends(c'.catalogs, c.catalogs)
  {
    if target == c.active && !recovering {
      PublishOk(c, wishes, requestId, None);
    } else {
      var c1 := c.(switching := true, revision := c.revision + 1, job := Selecting(target, requestId, recovering, closing));
      CoreMoves(c, c1, wishes);
      PublishOk(c1, wishes, None, None);
    }
  }

  lemma FinishSelectionOk(c: Core, wishes: map<string, Wish>)
    requires CoreOk(c, wishes) && c.job.Selecting?
    ensures CoreOk(FinishSelection(c), wishes) && Extends(FinishSelection(c).catalogs, c.catalogs)
  {
    var job, c1 := c.job, c.(switching := false, job := Idle);
    if c.closed || !Owned(c, job.target) {
      CoreMoves(c, c1.(closed := true), wishes);
    } else {
      var c2 := c1.(active := job.target);
      CoreMoves(c, c2, wishes);
      PublishOk(c2, wishes, job.requestId, None);
      if job.closing.Some? {
        var c3 := Publish(c2, job.requestId, None);
        CoreMoves(c3, c3.(job := ClosingChild(job.closing.value)), wishes);
      }
    }
  }

  lemma FailSelectionOk(c: Core, wishes: map<string, Wish>, replacing: bool, lost: bool, error: WireError)
    requires CoreOk(c, wishes) && c.job.Selecting?
    ensures var c' := FailSelection(c, replacing, lost, error); CoreOk(c', wishes) && Extends(c'.catalogs, c.catalogs)
  {
    var job, c1 := c.job, c.(switching := false, job := Idle);
    CoreMoves(c, c1, wishes);
    CoreMoves(c, c1.(closed := true), wishes);
    PublishOk(c1, wishes, job.requestId, Some(error));
    var c2 := Publish(c1, job.requestId, Some(error));
    LoseActiveOk(c2, wishes);
    var c3 := if lost then LoseActive(c2) else c2;
    if job.closing.Some? {
      PublishOk(c3, wishes, Some(job.closing.value.requestId), Some(NOT_RETURNED));
    }
  }

  lemma HandleControlOk(c: Core, wishes: map<string, Wish>, message: nat, command: Command)
    requires CoreOk(c, wishes) && c.job.Idle? && NamesWish(wishes, command.action)
    ensures var c' := HandleControl(c, message, command); CoreOk(c', wishes) && Extends(c'.catalogs, c.catalogs)
  {
    if !c.closed {
      if !Passes(c, command) {
        if !command.action.Act? {
          PublishOk(c, wishes, Some(command.action.requestId), Some(STALE_REQUEST));
        }
      } else {
        match command.action {
          case Act => CoreMoves(c, c.(job := Acting(message)), wishes);
          case Select(targetId, requestId) => StartSelectionOk(c, wishes, targetId, Some(requestId), false, None);
          case CloseActive(requestId) =>
            if c.active == c.attached {
              PublishOk(c, wishes, Some(requestId), Some(MAIN_WINDOW));
            } else {
              StartSelectionOk(c, wishes, c.attached, None, false, Some(Closing(message, requestId, c.active)));
            }
        }
      }
    }
  }

  lemma EndCloseOk(c: Core, wishes: map<string, Wish>, error: Option<WireError>)
    requires CoreOk(c, wishes) && c.job.ClosingChild?
    ensures CoreOk(EndClose(c, error), wishes) && Extends(EndClose(c, error).catalogs, c.catalogs)
  {
    var c1 := c.(job := Idle);
    CoreMoves(c, c1, wishes);
    PublishOk(c1, wishes, Some(c.job.close.requestId), error);
  }

  lemma RunRecoveryOk(c: Core, wishes: map<string, Wish>)
    requires CoreOk(c, wishes) && c.job.Idle?
    ensures CoreOk(RunRecovery(c), wishes) && Extends(RunRecovery(c).catalogs, c.catalogs)
  {
    var c1 := c.(recoveryQueued := false);
    CoreMoves(c, c1, wishes);
    StartSelectionOk(c1, wishes, c.attached, None, true, None);
  }

  lemma WindowsChangeOk(c: Core, wishes: map<string, Wish>, windows: seq<Window>, activeLost: bool)
    requires CoreOk(c, wishes)
    ensures var c' := Publish(if activeLost then QueueRecovery(c.(windows := windows)) else c.(windows := windows), None, None);
            CoreOk(c', wishes) && Extends(c'.catalogs, c.catalogs)
  {
    var c1 := c.(windows := windows);
    CoreMoves(c, c1, wishes);
    QueueRecoveryOk(c1, wishes);
    var c2 := if activeLost then QueueRecovery(c1) else c1;
    PublishOk(c2, wishes, None, None);
  }

  // ------------------------------------------------- the client keeps its part

  lemma ClientSurvives(catalogs: Catalogs, catalogs': Catalogs, wishes: map<string, Wish>, attached: string, cl: Client)
    requires ClientOk(catalogs, wishes, attached, cl) && Extends(catalogs', catalogs)
    ensures ClientOk(catalogs', wishes, attached, cl)
  {
  }

  lemma SentSurvives(catalogs: Catalogs, catalogs': Catalogs, wishes: map<string, Wish>, m: Sent)
    requires SentOk(catalogs, wishes, m) && Extends(catalogs', catalogs)
    ensures SentOk(catalogs', wishes, m)
  {
    var k :| k in catalogs && catalogs[k].selection.revision == m.command.revision && catalogs[k].selection.selectedTargetId == m.shown
             && !catalogs[k].selection.selecting;
    assert k in catalogs' && catalogs'[k] == catalogs[k];
  }

  /** Whatever frame arrives, the client shows a published state, and a request ends in what it asked for. */
  lemma AcceptFrameOk(c: Core, wishes: map<string, Wish>, cl: Client, f: Frame)
    requires CoreOk(c, wishes) && ClientOk(c.catalogs, wishes, c.attached, cl) && Published(c.catalogs, f)
    ensures ClientOk(c.catalogs, wishes, c.attached, AcceptFrame(cl, f))
  {
    AcceptPublished(c.catalogs, cl.receiver, f);
    assert EntryOk(c, wishes, f.catalogRevision);
  }

  /** A command the client may send carries the revision of a settled state that showed its target. */
  lemma SendOk(catalogs: Catalogs, wishes: map<string, Wish>, attached: string, cl: Client, action: Action)
    requires ClientOk(catalogs, wishes, attached, cl) && MaySend(cl, Act) && NamesWish(wishes, action)
    ensures var s := cl.state.value.selection;
            SentOk(catalogs, wishes, Sent(Command(s.revision, action), s.selectedTargetId))
  {
    var k :| k in catalogs && catalogs[k] == cl.state.value;
  }

  lemma WishGrows(w: World, requestId: string, wish: Wish)
    requires Inv(w) && requestId !in w.wishes
    ensures Inv(w.(wishes := w.wishes[requestId := wish]))
  {
    var wishes' := w.wishes[requestId := wish];
    forall k ensures EntryOk(w.core, wishes', k) {
      assert EntryOk(w.core, w.wishes, k);
    }
    assert forall i :: 0 <= i < |w.sent| ==> SentOk(w.core.catalogs, w.wishes, w.sent[i]);
  }

  // -------------------------------------------------------- the gate is exact

  /** A command passes the gate only while the window its sender was shown is the active one. */
  lemma GateIsExact(c: Core, wishes: map<string, Wish>, m: Sent)
    requires CoreOk(c, wishes) && SentOk(c.catalogs, wishes, m) && Passes(c, m.command)
    ensures m.shown == c.active
  {
    var k :| k in c.catalogs && c.catalogs[k].selection.revision == m.command.revision && c.catalogs[k].selection.selectedTargetId == m.shown
             && !c.catalogs[k].selection.selecting;
    assert EntryOk(c, wishes, k);
  }

  /** A step of Core alone, whose suspended job still faces the right window. */
  lemma CoreSteps(w: World, c': Core, deeds': seq<Deed>)
    requires Inv(w) && CoreOk(c', w.wishes) && Extends(c'.catalogs, w.core.catalogs) && c'.attached == w.core.attached
    requires JobOk(c', w.sent)
    requires forall i :: 0 <= i < |deeds'| ==> DeedOk(w.sent, deeds'[i])
    ensures Inv(w.(core := c', deeds := deeds'))
  {
    ClientSurvives(w.core.catalogs, c'.catalogs, w.wishes, w.core.attached, w.client);
    forall i | 0 <= i < |w.sent| ensures SentOk(c'.catalogs, w.wishes, w.sent[i]) {
      SentSurvives(w.core.catalogs, c'.catalogs, w.wishes, w.sent[i]);
    }
  }

  lemma PublishKeepsJob(c: Core, requestId: Option<string>, error: Option<WireError>)
    ensures var c' := Publish(c, requestId, error); c'.job == c.job && c'.active == c.active && c'.attached == c.attached
  {
  }

  lemma CommandArrivesOk(w: World, message: nat)
    requires Inv(w) && Enabled(w, CommandArrives(message))
    ensures Inv(Step(w, CommandArrives(message)))
  {
    var m := w.sent[message];
    assert SentOk(w.core.catalogs, w.wishes, m);
    HandleControlOk(w.core, w.wishes, message, m.command);
    if Passes(w.core, m.command) {
      GateIsExact(w.core, w.wishes, m);
    }
    CoreSteps(w, HandleControl(w.core, message, m.command), Deeds(w, message));
  }

  lemma SelectionEndsOk(w: World, e: Event)
    requires Inv(w) && Enabled(w, e) && (e.SelectionSucceeds? || e.SelectionFails?)
    ensures Inv(Step(w, e))
  {
    if e.SelectionSucceeds? {
      FinishSelectionOk(w.core, w.wishes);
      CoreSteps(w, FinishSelection(w.core), w.deeds);
    } else {
      FailSelectionOk(w.core, w.wishes, e.replacing, e.lost, e.error);
      CoreSteps(w, FailSelection(w.core, e.replacing, e.lost, e.error), w.deeds);
    }
  }

  lemma QueueStepsOk(w: World, e: Event)
    requires Inv(w) && Enabled(w, e) && (e.RecoveryRuns? || e.ReturnRuns? || e.ChildClosed? || e.CommandWorks? || e.CommandEnds?)
    ensures Inv(Step(w, e))
  {
    var c := w.core;
    match e {
      case RecoveryRuns =>
        RunRecoveryOk(c, w.wishes);
        CoreSteps(w, RunRecovery(c), w.deeds);
      case ReturnRuns =>
        StartSelectionOk(c, w.wishes, c.attached, None, false, None);
        CoreSteps(w, StartSelection(c, c.attached, None, false, None), w.deeds);
      case ChildClosed(failure) =>
        EndCloseOk(c, w.wishes, failure);
        CoreSteps(w, EndClose(c, failure), w.deeds + [Deed(c.job.close.message, c.job.close.child)]);
      case CommandWorks => CoreSteps(w, c, w.deeds + [Deed(c.job.message, c.active)]);
      case CommandEnds =>
        CoreMoves(c, c.(job := Idle), w.wishes);
        CoreSteps(w, c.(job := Idle), w.deeds);
    }
  }

  lemma RecoveryKeepsJob(c: Core)
    ensures QueueRecovery(c).job == c.job && QueueRecovery(c).active == c.active && QueueRecovery(c).attached == c.attached
    ensures LoseActive(c).job == c.job && LoseActive(c).active == c.active && LoseActive(c).attached == c.attached
  {
  }

  lemma PageStepsOk(w: World, e: Event)
    requires Inv(w) && Enabled(w, e) && (e.WindowsChange? || e.ActiveLost?)
    ensures Inv(Step(w, e))
  {
    var c := w.core;
    match e {
      case WindowsChange(windows, activeLost) =>
        WindowsChangeOk(c, w.wishes, windows, activeLost);
        RecoveryKeepsJob(c.(windows := windows));
        var c2 := if activeLost then QueueRecovery(c.(windows := windows)) else c.(windows := windows);
        PublishKeepsJob(c2, None, None);
        CoreSteps(w, Publish(c2, None, None), w.deeds);
      case ActiveLost =>
        LoseActiveOk(c, w.wishes);
        RecoveryKeepsJob(c);
        CoreSteps(w, LoseActive(c), w.deeds);
    }
  }

  lemma RepublishOk(w: World, c1: Core)
    requires Inv(w) && c1 == w.core.(available := c1.available)
    ensures Inv(w.(core := Publish(c1, None, None)))
  {
    CoreMoves(w.core, c1, w.wishes);
    PublishOk(c1, w.wishes, None, None);
    PublishKeepsJob(c1, None, None);
    CoreSteps(w, Publish(c1, None, None), w.deeds);
  }

  lemma ConnectionStepsOk(w: World, e: Event)
    requires Inv(w) && Enabled(w, e) && (e.Republish? || e.Connects? || e.ControlCloses? || e.Fails?)
    ensures Inv(Step(w, e))
  {
    var c := w.core;
    match e {
      case Republish => RepublishOk(w, c);
      case Connects => RepublishOk(w, c.(available := true));
      case ControlCloses =>
        CoreMoves(c, c.(available := false), w.wishes);
        CoreSteps(w, c.(available := false), w.deeds);
      case Fails =>
        CoreMoves(c, c.(closed := true), w.wishes);
        CoreSteps(w, c.(closed := true), w.deeds);
    }
  }

  lemma SentGrows(w: World, m: Sent)
    requires Inv(w) && SentOk(w.core.catalogs, w.wishes, m)
    ensures Inv(w.(sent := w.sent + [m]))
  {
    assert forall i :: 0 <= i < |w.deeds| ==> DeedOk(w.sent, w.deeds[i]);
  }

  lemma ClientStepsOk(w: World, e: Event)
    requires Inv(w) && Enabled(w, e)
    requires e.FrameArrives? || e.ClientSends? || e.ClientRequests? || e.ClientDropsRequest? || e.ClientTearsDown?
    ensures Inv(Step(w, e))
  {
    var cl := w.client;
    match e {
      case FrameArrives(f) => AcceptFrameOk(w.core, w.wishes, cl, f);
      case ClientSends =>
        SendOk(w.core.catalogs, w.wishes, w.core.attached, cl, Act);
        SentGrows(w, Sent(Command(cl.state.value.selection.revision, Act), cl.state.value.selection.selectedTargetId));
      case ClientRequests(wish, requestId) =>
        WishGrows(w, requestId, wish);
        var w1 := w.(wishes := w.wishes[requestId := wish], client := cl.(pending := Some(requestId)));
        var action := ActionOf(wish, requestId);
        SendOk(w1.core.catalogs, w1.wishes, w1.core.attached, cl, action);
        SentGrows(w1, Sent(Command(cl.state.value.selection.revision, action), cl.state.value.selection.selectedTargetId));
      case ClientDropsRequest =>
      case ClientTearsDown =>
    }
  }

  lemma StepKeepsInv(w: World, e: Event)
    requires Inv(w) && Enabled(w, e)
    ensures Inv(Step(w, e))
  {
    match e {
      case CommandArrives(message) => CommandArrivesOk(w, message);
      case SelectionSucceeds => SelectionEndsOk(w, e);
      case SelectionFails(_, _, _) => SelectionEndsOk(w, e);
      case RecoveryRuns => QueueStepsOk(w, e);
      case ReturnRuns => QueueStepsOk(w, e);
      case ChildClosed(_) => QueueStepsOk(w, e);
      case CommandWorks => QueueStepsOk(w, e);
      case CommandEnds => QueueStepsOk(w, e);
      case WindowsChange(_, _) => PageStepsOk(w, e);
      case ActiveLost => PageStepsOk(w, e);
      case Republish => ConnectionStepsOk(w, e);
      case Connects => ConnectionStepsOk(w, e);
      case ControlCloses => ConnectionStepsOk(w, e);
      case Fails => ConnectionStepsOk(w, e);
      case _ => ClientStepsOk(w, e);
    }
  }

  lemma {:induction false} EveryRunKeepsInv(ws: seq<World>, es: seq<Event>, n: nat)
    requires IsRun(ws, es) && n <= |es|
    ensures Inv(ws[n])
  {
    if n == 0 {
      assert ReceiverInv(map[], FRESH);
    } else {
      EveryRunKeepsInv(ws, es, n - 1);
      StepKeepsInv(ws[n - 1], es[n - 1]);
    }
  }

  // ------------------------------------------------------------ main results

  /**
   End to end, for any delay, loss, duplication and reordering: whatever a command works on, at its
   start and after any suspension, is the window the client showed as selected when it sent it.
   */
  lemma CommandsActOnWhatWasShown(ws: seq<World>, es: seq<Event>, i: nat)
    requires IsRun(ws, es) && i < |ws[|es|].deeds|
    ensures var w := ws[|es|]; var d := w.deeds[i];
            d.message < |w.sent| && d.target == w.sent[d.message].shown
  {
    EveryRunKeepsInv(ws, es, |es|);
    assert DeedOk(ws[|es|].sent, ws[|es|].deeds[i]);
  }

  /** A live Core refuses a command exactly when a selection is under way or began after the state it was sent from. */
  lemma RefusedMeansSelectionBegan(ws: seq<World>, es: seq<Event>, n: nat, message: nat)
    requires IsRun(ws, es) && n <= |es| && message < |ws[n].sent| && !ws[n].core.closed
    ensures !Passes(ws[n].core, ws[n].sent[message].command) <==>
              ws[n].core.switching || ws[n].sent[message].command.revision < ws[n].core.revision
  {
    EveryRunKeepsInv(ws, es, n);
    var w := ws[n];
    var m := w.sent[message];
    assert SentOk(w.core.catalogs, w.wishes, m);
    var k :| k in w.core.catalogs && w.core.catalogs[k].selection.revision == m.command.revision;
    assert EntryOk(w.core, w.wishes, k);
  }

  /** What the client shows was published, as a whole, by Core. */
  lemma ClientShowsPublishedStates(ws: seq<World>, es: seq<Event>, n: nat)
    requires IsRun(ws, es) && n <= |es| && ws[n].client.state.Some?
    ensures exists k :: k in ws[n].core.catalogs && ws[n].core.catalogs[k] == ws[n].client.state.value
  {
    EveryRunKeepsInv(ws, es, n);
  }

  /** A request that ends without an error ends in the window it asked for: the one named, or the main one. */
  lemma ResolvedRequestsAreMet(ws: seq<World>, es: seq<Event>, n: nat, requestId: string)
    requires IsRun(ws, es) && n <= |es| && requestId in ws[n].client.resolved
    ensures requestId in ws[n].wishes
            && Meets(ws[n].wishes[requestId], ws[n].core.attached, ws[n].client.resolved[requestId].selection.selectedTargetId)
  {
    EveryRunKeepsInv(ws, es, n);
  }

  /** The active window changes only in a step that ends a selection, so never while a command is suspended. */
  lemma OnlySelectionsMoveTheActiveWindow(w: World, e: Event)
    requires Enabled(w, e) && Step(w, e).core.active != w.core.active
    ensures e.SelectionSucceeds? && w.core.job.Selecting? && Step(w, e).core.active == w.core.job.target
  {
    var c := w.core;
    match e {
      case CommandArrives(message) => HandleKeepsActive(c, message, w.sent[message].command);
      case SelectionFails(replacing, lost, error) => FailKeepsActive(c, replacing, lost, error);
      case _ =>
    }
  }

  lemma HandleKeepsActive(c: Core, message: nat, command: Command)
    ensures HandleControl(c, message, command).active == c.active
  {
  }

  lemma FailKeepsActive(c: Core, replacing: bool, lost: bool, error: WireError)
    requires c.job.Selecting?
    ensures FailSelection(c, replacing, lost, error).active == c.active
  {
  }

  // ----------------------------------------------------------------- classes

  /** Core's fields and methods; each method is one stretch between awaits. */
  class SessionWindows {
    var revision: nat
    var catalogRevision: nat
    var active: string
    const attached: string
    var switching: bool
    var recoveryQueued: bool
    var closed: bool
    var available: bool
    var windows: seq<Window>
    var job: Job
    var catalogs: Catalogs

    function View(): Core
      reads this
    {
      Core(revision, catalogRevision, active, attached, switching, recoveryQueued, closed, available, windows, job, catalogs)
    }

    constructor (attached: string, windows: seq<Window>)
      ensures View() == Begin(attached, windows).core
    {
      this.attached, active, this.windows := attached, attached, windows;
      revision, catalogRevision, job, catalogs := 0, 0, Idle, map[];
      switching, recoveryQueued, closed, available := false, false, false, false;
    }

    method PublishWindows(requestId: Option<string>, error: Option<WireError>)
      modifies this`catalogRevision, this`catalogs
      ensures View() == Publish(old(View()), requestId, error)
    {
      if closed || !available {
        return;
      }
      catalogRevision := catalogRevision + 1;
      catalogs := catalogs[catalogRevision := WindowState(Selection(revision, active, switching, requestId, error), windows)];
    }

    method QueueWindowRecovery()
      modifies this
      ensures View() == QueueRecovery(old(View()))
    {
      if closed || active == attached || switching || recoveryQueued {
        return;
      }
      recoveryQueued := true;
      switching := true;
      PublishWindows(None, None);
    }

    method RunWindowRecovery()
      requires job.Idle?
      modifies this
      ensures View() == RunRecovery(old(View()))
    {
      recoveryQueued := false;
      if !closed {
        SelectWindow(attached, None, true, None);
      }
    }

    method SelectWindow(target: string, requestId: Option<string>, recovering: bool, closing: Option<Closing>)
      requires job.Idle?
      modifies this
      ensures View() == StartSelection(old(View()), target, requestId, recovering, closing)
    {
      if target == active && !recovering {
        PublishWindows(requestId, None);
        return;
      }
      switching := true;
      revision := revision + 1;
      job := Selecting(target, requestId, recovering, closing);
      PublishWindows(None, None);
    }

    method CaptureReplaced()
      requires job.Selecting?
      modifies this
      ensures View() == FinishSelection(old(View()))
    {
      var selection := job;
      job := Idle;
      switching := false;
      var owned := selection.target == attached || exists i :: 0 <= i < |windows| && windows[i].targetId == selection.target;
      if closed || !owned {
        closed := true;
        return;
      }
      active := selection.target;
      PublishWindows(selection.requestId, None);
      if selection.closing.Some? {
        job := ClosingChild(selection.closing.value);
      }
    }

    method SelectionFailed(replacing: bool, lost: bool, error: WireError)
      requires job.Selecting?
      modifies this
      ensures View() == FailSelection(old(View()), replacing, lost, error)
    {
      var selection := job;
      job := Idle;
      switching := false;
      if replacing || selection.recovering {
        closed := true;
        return;
      }
      PublishWindows(selection.requestId, Some(error));
      if lost {
        if active == attached {
          closed := true;
        } else {
          QueueWindowRecovery();
        }
      }
      if selection.closing.Some? {
        PublishWindows(Some(selection.closing.value.requestId), Some(NOT_RETURNED));
      }
    }

    method Handle(message: nat, command: Command)
      requires job.Idle?
      modifies this
      ensures View() == HandleControl(old(View()), message, command)
    {
      if closed {
        return;
      }
      if switching || command.revision != revision {
        if !command.action.Act? {
          PublishWindows(Some(command.action.requestId), Some(STALE_REQUEST));
        }
        return;
      }
      match command.action {
        case Act => job := Acting(message);
        case Select(targetId, requestId) => SelectWindow(targetId, Some(requestId), false, None);
        case CloseActive(requestId) =>
          if active == attached {
            PublishWindows(Some(requestId), Some(MAIN_WINDOW));
          } else {
            SelectWindow(attached, None, false, Some(Closing(message, requestId, active)));
          }
      }
    }

    method ChildCloseEnded(failure: Option<WireError>)
      requires job.ClosingChild?
      modifies this
      ensures View() == EndClose(old(View()), failure)
    {
      var requestId := job.close.requestId;
      job := Idle;
      PublishWindows(Some(requestId), failure);
    }
  }

  /** The client's fields and methods. */
  class ClientWindows {
    var state: Option<WindowState>
    const catalog: WindowCatalogReceiver
    var pending: Option<string>
    var resolved: map<string, WindowState>

    function View(): Client
      reads this, catalog
    {
      Client(state, catalog.View(), pending, resolved)
    }

    constructor ()
      ensures View() == UNCONNECTED && fresh(catalog)
    {
      state, pending, resolved := None, None, map[];
      catalog := new WindowCatalogReceiver();
    }

    method TeardownTransport()
      modifies this, catalog
      ensures View() == Teardown(old(View()))
    {
      state, pending := None, None;
      catalog.Reset();
    }

    method HandleWindowState(frame: Frame)
      modifies this, catalog
      ensures View() == AcceptFrame(old(View()), frame)
    {
      if state.Some? && frame.selection.revision < state.value.selection.revision {
        return;
      }
      var outcome := catalog.Accept(frame);
      match outcome {
        case Nothing =>
        case InvalidCatalog => TeardownTransport();
        case Snapshot(s) =>
          state := Some(s);
          if pending.Some? && s.selection.requestId == pending && !s.selection.selecting {
            if s.selection.error.None? {
              resolved := resolved[pending.value := s];
            }
            pending := None;
          }
      }
    }

    /** The revision to tag a window-scoped command with, or None when it may not be sent now. */
    method SendControl(action: Action) returns (tag: Option<nat>)
      ensures tag == if MaySend(View(), action) then Some(state.value.selection.revision) else None
    {
      if state.None? || state.value.selection.selecting || catalog.pending.Some? || (pending.Some? && action.Act?) {
        return None;
      }
      return Some(state.value.selection.revision);
    }

    /** Asks Core for a window, unless the client refuses or the wish is met already. */
    method RequestWindowAction(wish: Wish, requestId: string) returns (command: Option<Command>)
      modifies this`pending
      ensures View() == if Requests(old(View()), wish) then old(View()).(pending := Some(requestId)) else old(View())
      ensures command == if Requests(old(View()), wish) then Some(Command(state.value.selection.revision, ActionOf(wish, requestId))) else None
    {
      if state.None? || state.value.selection.selecting || pending.Some? || catalog.pending.Some? {
        return None;
      }
      var shown := state.value;
      match wish {
        case WishSelect(targetId) =>
          if targetId == shown.selection.selectedTargetId || !Listed(shown.windows, targetId) {
            return None;
          }
        case WishClose =>
          if MainSelected(shown) {
            return None;
          }
      }
      pending := Some(requestId);
      var tag := SendControl(ActionOf(wish, requestId));
      command := Some(Command(tag.value, ActionOf(wish, requestId)));
    }
  }
}
